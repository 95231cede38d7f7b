/** What `default_upload` guarantees: while the upload job is pending or running
    no service on protocol data is launched. */
module UploadExclusion {
  import opened Layout
  import opened Jobs
  import opened JobsManager
  import opened JobsSafety
  import opened JobsLiveness
  import opened Plugin
  import opened Gating

  /** Stops jobs first, then creates and starts those of a plan. */
  function Program(stops: seq<Name>, plan: seq<Planned>): (r: seq<Call>)
    ensures |r| == |stops| + 2 * |plan|
  {
    Stops(stops) + Calls(plan)
  }

  function UploadCalls(c: PluginConfig): seq<Call> {
    Program(ServiceNames(OnProtocolData(c.services)), UploadPlan(c))
  }

  // ---- where the jobs stand in the plan -----------------------------------

  function UploadIndex(c: PluginConfig): nat {
    |JobsOf(c.preUpload)|
  }

  function ServiceIndex(c: PluginConfig, i: nat): nat {
    |JobsOf(c.preUpload)| + 1 + |ListOf(c.postUpload)| + i
  }

  predicate HasUpload(c: PluginConfig) {
    IsMultiClient(OnProtocolData(c.services))
  }

  function PreJobs(c: PluginConfig): seq<Name> {
    Names(JobsOf(c.preUpload))
  }

  /** What the post-upload jobs need: the upload, or without one what it would need. */
  function PostNeeds(c: PluginConfig): seq<Name> {
    if HasUpload(c) then [UPLOAD] else PreJobs(c)
  }

  function UploadJobs(c: PluginConfig): seq<Planned> {
    if HasUpload(c) then [Planned(UPLOAD, JobConfig(Some(PreJobs(c)), None, OnFailure))] else []
  }

  /** The place of the first post-upload job. */
  function PostIndex(c: PluginConfig): nat {
    |JobsOf(c.preUpload)| + if HasUpload(c) then 1 else 0
  }

  /** What a restarted service waits for. */
  function Awaited(c: PluginConfig): seq<Name> {
    if ListOf(c.postUpload) == [] then PostNeeds(c) else Names(ListOf(c.postUpload))
  }

  /** What stands where in the plan of `default_upload`. */
  lemma UploadPlanParts(c: PluginConfig)
    ensures UploadPlan(c) == PlanJobs(JobsOf(c.preUpload), []) + UploadJobs(c)
                             + PlanJobs(ListOf(c.postUpload), PostNeeds(c))
                             + PlanServices(OnProtocolData(c.services), [], Awaited(c))
    ensures |UploadPlan(c)| == PostIndex(c) + |ListOf(c.postUpload)| + |OnProtocolData(c.services)|
  {
    assert NeedsAfter(JobsOf(c.preUpload), []) == PreJobs(c);
    assert UploadJob(c, PreJobs(c)) == (UploadJobs(c), PostNeeds(c));
    assert NeedsAfter(ListOf(c.postUpload), PostNeeds(c)) == Awaited(c);
  }

  lemma FirstPartAt<T>(a: seq<T>, b: seq<T>, c: seq<T>, d: seq<T>, k: nat)
    requires k < |a|
    ensures (a + b + c + d)[k] == a[k]
  {
  }

  lemma SecondPartAt<T>(a: seq<T>, b: seq<T>, c: seq<T>, d: seq<T>, k: nat)
    requires k < |b|
    ensures (a + b + c + d)[|a| + k] == b[k]
  {
  }

  lemma ThirdPartAt<T>(a: seq<T>, b: seq<T>, c: seq<T>, d: seq<T>, n: nat, k: nat)
    requires n == |a| + |b| && k < |c|
    ensures (a + b + c + d)[n + k] == c[k]
  {
  }

  lemma LastPartAt<T>(a: seq<T>, b: seq<T>, c: seq<T>, d: seq<T>, n: nat, k: nat)
    requires n == |a| + |b| + |c| && k < |d|
    ensures (a + b + c + d)[n + k] == d[k]
  {
  }

  lemma PreAt(c: PluginConfig, k: nat)
    requires k < |JobsOf(c.preUpload)|
    ensures k < |UploadPlan(c)| && UploadPlan(c)[k] == PlanJob(JobsOf(c.preUpload)[k], [])
  {
    UploadPlanParts(c);
    FirstPartAt(PlanJobs(JobsOf(c.preUpload), []), UploadJobs(c), PlanJobs(ListOf(c.postUpload), PostNeeds(c)),
                PlanServices(OnProtocolData(c.services), [], Awaited(c)), k);
  }

  lemma UploadAt(c: PluginConfig)
    requires HasUpload(c)
    ensures |JobsOf(c.preUpload)| < |UploadPlan(c)|
    ensures UploadPlan(c)[|JobsOf(c.preUpload)|] == Planned(UPLOAD, JobConfig(Some(PreJobs(c)), None, OnFailure))
  {
    UploadPlanParts(c);
    SecondPartAt(PlanJobs(JobsOf(c.preUpload), []), UploadJobs(c), PlanJobs(ListOf(c.postUpload), PostNeeds(c)),
                 PlanServices(OnProtocolData(c.services), [], Awaited(c)), 0);
  }

  lemma PostAt(c: PluginConfig, k: nat)
    requires k < |ListOf(c.postUpload)|
    ensures PostIndex(c) + k < |UploadPlan(c)|
    ensures UploadPlan(c)[PostIndex(c) + k] == PlanJob(ListOf(c.postUpload)[k], PostNeeds(c))
  {
    UploadPlanParts(c);
    ThirdPartAt(PlanJobs(JobsOf(c.preUpload), []), UploadJobs(c), PlanJobs(ListOf(c.postUpload), PostNeeds(c)),
                PlanServices(OnProtocolData(c.services), [], Awaited(c)), PostIndex(c), k);
  }

  lemma ServiceAt(c: PluginConfig, k: nat)
    requires k < |OnProtocolData(c.services)|
    ensures PostIndex(c) + |ListOf(c.postUpload)| + k < |UploadPlan(c)|
    ensures UploadPlan(c)[PostIndex(c) + |ListOf(c.postUpload)| + k] ==
            PlanService(OnProtocolData(c.services)[k], [], Awaited(c))
  {
    UploadPlanParts(c);
    var d := PlanServices(OnProtocolData(c.services), [], Awaited(c));
    assert d[k] == PlanService(OnProtocolData(c.services)[k], [], Awaited(c));
    LastPartAt(PlanJobs(JobsOf(c.preUpload), []), UploadJobs(c), PlanJobs(ListOf(c.postUpload), PostNeeds(c)), d,
               PostIndex(c) + |ListOf(c.postUpload)|, k);
  }

  lemma UploadPlace(c: PluginConfig)
    requires HasUpload(c)
    ensures |UploadPlan(c)| == ServiceIndex(c, |OnProtocolData(c.services)|)
    ensures UploadPlan(c)[UploadIndex(c)] ==
            Planned(UPLOAD, JobConfig(Some(NeedsAfter(JobsOf(c.preUpload), [])), None, OnFailure))
  {
    UploadPlanParts(c);
    UploadAt(c);
    assert NeedsAfter(JobsOf(c.preUpload), []) == PreJobs(c);
  }

  lemma PostPlace(c: PluginConfig, k: nat)
    requires HasUpload(c) && k < |ListOf(c.postUpload)|
    ensures UploadIndex(c) + 1 + k < |UploadPlan(c)|
    ensures UploadPlan(c)[UploadIndex(c) + 1 + k] == PlanJob(ListOf(c.postUpload)[k], [UPLOAD])
  {
    PostAt(c, k);
  }

  lemma ServicePlace(c: PluginConfig, k: nat)
    requires HasUpload(c) && k < |OnProtocolData(c.services)|
    ensures ServiceIndex(c, k) < |UploadPlan(c)|
    ensures UploadPlan(c)[ServiceIndex(c, k)] ==
            PlanService(OnProtocolData(c.services)[k], [], NeedsAfter(ListOf(c.postUpload), [UPLOAD]))
  {
    ServiceAt(c, k);
    assert NeedsAfter(ListOf(c.postUpload), [UPLOAD]) == Awaited(c);
  }

  /** The upload job, and the `k`-th post-upload job and service in the plan. */
  lemma UploadPlanAt(c: PluginConfig, k: nat)
    requires HasUpload(c)
    ensures var plan, posts, services := UploadPlan(c), ListOf(c.postUpload), OnProtocolData(c.services);
            && |plan| == ServiceIndex(c, |services|)
            && (k == 0 ==> plan[UploadIndex(c) + k] ==
                           Planned(UPLOAD, JobConfig(Some(NeedsAfter(JobsOf(c.preUpload), [])), None, OnFailure)))
            && (k < |posts| ==> plan[UploadIndex(c) + 1 + k] == PlanJob(posts[k], [UPLOAD]))
            && (k < |services| ==> plan[ServiceIndex(c, k)] == PlanService(services[k], [], NeedsAfter(posts,
              [UPLOAD])))
  {
    UploadPlace(c);
    if k < |ListOf(c.postUpload)| {
      PostPlace(c, k);
    }
    if k < |OnProtocolData(c.services)| {
      ServicePlace(c, k);
    }
  }

  lemma UploadPlanNames(c: PluginConfig)
    requires HasUpload(c)
    ensures PlanNames(UploadPlan(c)) ==
            Names(JobsOf(c.preUpload)) + [UPLOAD] + Names(ListOf(c.postUpload))
            + ServiceNames(OnProtocolData(c.services))
  {
    var b := PlanJobs(JobsOf(c.preUpload), []);
    var u := UploadJob(c, NeedsAfter(JobsOf(c.preUpload), [])).0;
    var p := PlanJobs(ListOf(c.postUpload), [UPLOAD]);
    var s := PlanServices(OnProtocolData(c.services), [], NeedsAfter(ListOf(c.postUpload), [UPLOAD]));
    NamesOfConcat(b + u + p, s);
    NamesOfConcat(b + u, p);
    NamesOfConcat(b, u);
    assert PlanNames(b) == Names(JobsOf(c.preUpload)) && PlanNames(u) == [UPLOAD];
    assert PlanNames(p) == Names(ListOf(c.postUpload)) && PlanNames(s) == ServiceNames(OnProtocolData(c.services));
  }

  lemma {:induction false} SomeServices(services: seq<Service>)
    requires NoRepeats(ServiceNames(services))
    ensures NoRepeats(ServiceNames(OnProtocolData(services)))
    ensures forall n :: n in ServiceNames(OnProtocolData(services)) ==> n in ServiceNames(services)
  {
    if services != [] {
      var k := |services| - 1;
      var front, last := services[..k], services[k];
      assert ServiceNames(services) == ServiceNames(front) + [last.name];
      NoRepeatsConcat(ServiceNames(front), [last.name]);
      SomeServices(front);
      if last.useProtocolData {
        assert ServiceNames(OnProtocolData(services)) == ServiceNames(OnProtocolData(front)) + [last.name];
        NoRepeatsConcat(ServiceNames(OnProtocolData(front)), [last.name]);
      } else {
        assert OnProtocolData(services) == OnProtocolData(front);
      }
    }
  }

  lemma UploadSections(c: PluginConfig)
    requires IsValid(c)
    ensures NoRepeats([UPLOAD] + ServiceNames(c.services) + Names(JobsOf(c.preUpload)) + Names(ListOf(c.postUpload)))
  {
    var a := ListOf(c.auxServices) + Names(JobsOf(c.init)) + Names(ListOf(c.postDownload));
    var s, b, p := ServiceNames(c.services), Names(JobsOf(c.preUpload)), Names(ListOf(c.postUpload));
    assert AllNames(c) == [UPLOAD] + ([DOWNLOAD] + a) + (s + b + p);
    DropMiddle([UPLOAD], [DOWNLOAD] + a, s + b + p);
    assert [UPLOAD] + (s + b + p) == [UPLOAD] + s + b + p;
  }

  lemma Regroup(u: seq<Name>, s: seq<Name>, b: seq<Name>, p: seq<Name>, t: seq<Name>)
    requires NoRepeats(u + s + b + p) && NoRepeats(t) && forall n :: n in t ==> n in s
    ensures NoRepeats(b + u + p + t)
  {
    NoRepeatsConcat(u + s + b, p);
    NoRepeatsConcat(u + s, b);
    NoRepeatsConcat(u, s);
    NoRepeatsConcat(b, u);
    NoRepeatsConcat(b + u, p);
    NoRepeatsConcat(b + u + p, t);
  }

  lemma UploadPlanIsDistinct(c: PluginConfig)
    requires IsValid(c) && HasUpload(c)
    ensures DistinctNames(UploadPlan(c))
  {
    UploadSections(c);
    var s, b, p := ServiceNames(c.services), Names(JobsOf(c.preUpload)), Names(ListOf(c.postUpload));
    NoRepeatsConcat([UPLOAD] + s + b, p);
    NoRepeatsConcat([UPLOAD] + s, b);
    NoRepeatsConcat([UPLOAD], s);
    SomeServices(c.services);
    Regroup([UPLOAD], s, b, p, ServiceNames(OnProtocolData(c.services)));
    UploadPlanNames(c);
    DistinctIff(UploadPlan(c));
  }

  // ---- the guard ----------------------------------------------------------

  /** The needs name the upload, and before it at most the first ones of what the
      upload needs itself, in the same order. */
  predicate WaitsInOrder(uploadNeeds: seq<Name>, upload: Name, needs: seq<Name>) {
    exists n :: 0 <= n <= |uploadNeeds| && n < |needs| && needs[n] == upload && needs[..n] == uploadNeeds[..n]
  }

  /** A post-upload job that cannot be over before the upload is: its needs come
      to the upload, which is added last, without passing a job that may fail
      while the upload still waits for another one. */
  predicate ComesToUpload(c: PluginConfig, job: PlannedJob) {
    WaitsInOrder(NeedsAfter(JobsOf(c.preUpload), []), UPLOAD, ListOf(job.needs) + [UPLOAD])
  }

  /** Some post-upload job comes to the upload, or there are none. */
  predicate HasGuard(c: PluginConfig) {
    || ListOf(c.postUpload) == []
    || exists q :: 0 <= q < |ListOf(c.postUpload)| && ComesToUpload(c, ListOf(c.postUpload)[q])
  }

  /** The index in the plan of a job that every restarted service waits for and
      that is not over before the upload is. */
  ghost function Guard(c: PluginConfig): nat
    requires HasGuard(c)
  {
    if ListOf(c.postUpload) == [] then UploadIndex(c)
    else UploadIndex(c) + 1 + SomeGuard(c, ListOf(c.postUpload))
  }

  ghost function SomeGuard(c: PluginConfig, posts: seq<PlannedJob>): (q: nat)
    requires exists q :: 0 <= q < |posts| && ComesToUpload(c, posts[q])
    ensures q < |posts| && ComesToUpload(c, posts[q])
  {
    var q :| 0 <= q < |posts| && ComesToUpload(c, posts[q]);
    q
  }

  /** What the proof needs of a plan: an upload job, a guard, and services. */
  ghost predicate Guards(u: Planned, g: Planned) {
    g == u || (u.config.waitFor == None && g.config.waitFor == None
               && WaitsInOrder(ListOf(u.config.needs), u.name, ListOf(g.config.needs)))
  }

  predicate WaitsFor(p: Planned, g: Planned) {
    g.name in ListOf(p.config.waitFor)
  }

  lemma PlannedNeeds(job: PlannedJob, needs: seq<Name>)
    ensures ListOf(PlanJob(job, needs).config.needs) == ListOf(job.needs) + needs
    ensures PlanJob(job, needs).config.waitFor == None
  {
    assert [] + needs == needs;
  }

  lemma GuardConfig(c: PluginConfig)
    requires HasUpload(c) && HasGuard(c)
    ensures IsGuardAt(c, Guard(c))
  {
    if ListOf(c.postUpload) == [] {
      UploadGuards(c);
    } else {
      SomeGuardGuards(c);
    }
  }

  lemma SomeGuardGuards(c: PluginConfig)
    requires HasUpload(c) && HasGuard(c) && ListOf(c.postUpload) != []
    ensures IsGuardAt(c, Guard(c))
  {
    PostGuards(c, SomeGuard(c, ListOf(c.postUpload)), Guard(c));
  }

  lemma UploadGuards(c: PluginConfig)
    requires HasUpload(c) && ListOf(c.postUpload) == []
    ensures IsGuardAt(c, UploadIndex(c))
  {
    UploadPlanAt(c, 0);
    assert NeedsAfter(ListOf(c.postUpload), [UPLOAD]) == [UPLOAD];
  }

  ghost predicate IsGuardAt(c: PluginConfig, g: nat) {
    && UploadIndex(c) <= g < ServiceIndex(c, 0) <= |UploadPlan(c)|
    && Guards(UploadPlan(c)[UploadIndex(c)], UploadPlan(c)[g])
    && UploadPlan(c)[g].name in NeedsAfter(ListOf(c.postUpload), [UPLOAD])
  }

  lemma PostGuards(c: PluginConfig, q: nat, g: nat)
    requires HasUpload(c) && q < |ListOf(c.postUpload)| && ComesToUpload(c, ListOf(c.postUpload)[q])
    requires g == UploadIndex(c) + 1 + q
    ensures IsGuardAt(c, g)
  {
    var posts := ListOf(c.postUpload);
    UploadPlanAt(c, 0);
    UploadPlanAt(c, q);
    PlannedNeeds(posts[q], [UPLOAD]);
    assert Names(posts)[q] == posts[q].name;
  }

  lemma GuardIsGuard(c: PluginConfig, i: nat)
    requires HasUpload(c) && HasGuard(c) && i < |OnProtocolData(c.services)|
    ensures UploadIndex(c) <= Guard(c) < ServiceIndex(c, i) < |UploadPlan(c)|
    ensures Guards(UploadPlan(c)[UploadIndex(c)], UploadPlan(c)[Guard(c)])
    ensures WaitsFor(UploadPlan(c)[ServiceIndex(c, i)], UploadPlan(c)[Guard(c)])
    ensures UploadPlan(c)[ServiceIndex(c, i)].name == OnProtocolData(c.services)[i].name
  {
    GuardConfig(c);
    ServiceWaits(c, i, UploadPlan(c)[Guard(c)]);
  }

  lemma ServiceWaits(c: PluginConfig, i: nat, g: Planned)
    requires HasUpload(c) && i < |OnProtocolData(c.services)| && g.name in NeedsAfter(ListOf(c.postUpload), [UPLOAD])
    ensures ServiceIndex(c, i) < |UploadPlan(c)|
    ensures UploadPlan(c)[ServiceIndex(c, i)].name == OnProtocolData(c.services)[i].name
    ensures WaitsFor(UploadPlan(c)[ServiceIndex(c, i)], g)
  {
    UploadPlanAt(c, i);
    var services := OnProtocolData(c.services);
    assert services[i] in services;
    assert UploadPlan(c)[ServiceIndex(c, i)] == PlanService(services[i], [], NeedsAfter(ListOf(c.postUpload),
           [UPLOAD]));
  }

  // ---- one pass -----------------------------------------------------------

  /** While the upload is not over its guard is pending. */
  predicate GuardHolds(jobs: map<Name, Job>, u: Planned, g: Planned) {
    && IsPlanned(jobs, u) && IsPlanned(jobs, g)
    && (Ended(jobs[u.name].state) || g == u || IsPending(jobs[g.name].state))
  }

  predicate IsPending(s: JobState) {
    s.Inactive? && s.status.Pending?
  }

  predicate HeldBack(jobs: map<Name, Job>, u: Planned, p: Planned) {
    && IsPlanned(jobs, u) && IsPlanned(jobs, p)
    && (Ended(jobs[u.name].state) || NeverLaunched(jobs[p.name].state))
  }

  /** A launched upload has all it needs. */
  ghost predicate UploadGated(jobs: map<Name, Job>, u: Planned) {
    IsPlanned(jobs, u) && (Launched(jobs[u.name].state) ==> HasNeeds(jobs, u.config))
  }

  lemma FirstUnmet(deps: map<Name, Job>, needs: seq<Name>, n: nat) returns (j: nat)
    requires n <= |needs|
    ensures j <= n && forall i :: 0 <= i < j ==> needs[i] in deps && Succeeded(deps[needs[i]].state)
    ensures j < n ==> !(needs[j] in deps && Succeeded(deps[needs[j]].state))
  {
    j := 0;
    while j < n && needs[j] in deps && Succeeded(deps[needs[j]].state)
      invariant j <= n && forall i :: 0 <= i < j ==> needs[i] in deps && Succeeded(deps[needs[i]].state)
    {
      j := j + 1;
    }
  }

  /** The guard has to wait as long as the upload is neither over nor about to fail. */
  lemma GuardWaits(deps: map<Name, Job>, u: Planned, g: Planned)
    requires Guards(u, g) && g != u && u.name in deps && !Ended(deps[u.name].state)
    requires !DepsOf(deps, u.config).Broken?
    ensures DepsOf(deps, g.config).NotYet?
  {
    var needs, own := ListOf(u.config.needs), ListOf(g.config.needs);
    var n :| 0 <= n <= |needs| && n < |own| && own[n] == u.name && own[..n] == needs[..n];
    assert forall i :: 0 <= i < n ==> own[i] == own[..n][i] == needs[i];
    var j := FirstUnmet(deps, own, n);
    if j < n {
      FirstNeedDecides(deps, u.config, j);
    }
    FirstNeedDecides(deps, g.config, j);
  }

  lemma PassKeepsUploadGate(w: World, ps: set<Pid>, first: Io, second: Io, u: Planned)
    requires UploadGated(w.jobs, u)
    ensures UploadGated(Pass(w, ps, first, second).jobs, u)
    ensures UploadGated(ApplyTo(w, w.jobs.Keys, ActiveStep(w, ps, first)).jobs, u)
  {
    var mid := ApplyTo(w, w.jobs.Keys, ActiveStep(w, ps, first)).jobs;
    var later := Pass(w, ps, first, second).jobs;
    PassLaunches(w, ps, first, second, u.name);
    AllDoneIff(mid, u.config);
    forall m | m in ListOf(u.config.needs) && m in w.jobs
      ensures Succeeded(w.jobs[m].state) ==> Succeeded(mid[m].state)
      ensures Succeeded(mid[m].state) ==> m in later && Succeeded(later[m].state)
    {
      PassLaunches(w, ps, first, second, m);
    }
  }

  /** What does not end in the second half of a pass was not about to fail. */
  lemma NotEndedNotBroken(mid: World, second: Io, u: Planned)
    requires UploadGated(mid.jobs, u) && u.config.waitFor == None
    requires !Ended(InactiveStep(mid, second)(u.name).state)
    ensures !DepsOf(mid.jobs, u.config).Broken?
  {
    if Launched(mid.jobs[u.name].state) {
      AllDoneIff(mid.jobs, u.config);
    }
  }

  lemma PassHoldsBack(w: World, ps: set<Pid>, first: Io, second: Io, u: Planned, g: Planned, p: Planned)
    requires GuardHolds(w.jobs, u, g) && Guards(u, g) && UploadGated(w.jobs, u)
    ensures GuardHolds(Pass(w, ps, first, second).jobs, u, g)
    ensures HeldBack(w.jobs, u, p) && WaitsFor(p, g) ==> HeldBack(Pass(w, ps, first, second).jobs, u, p)
  {
    var mid := ApplyTo(w, w.jobs.Keys, ActiveStep(w, ps, first));
    var later := Pass(w, ps, first, second);
    PassLaunches(w, ps, first, second, u.name);
    PassLaunches(w, ps, first, second, g.name);
    if !Ended(later.jobs[u.name].state) {
      assert !Ended(mid.jobs[u.name].state);
      if g != u {
        assert mid.jobs[g.name] == w.jobs[g.name];
        PassKeepsUploadGate(w, ps, first, second, u);
        NotEndedNotBroken(mid, second, u);
        GuardWaits(mid.jobs, u, g);
      }
      if HeldBack(w.jobs, u, p) && WaitsFor(p, g) {
        assert mid.jobs[p.name] == w.jobs[p.name];
        AllDoneIff(mid.jobs, p.config);
        CheckKeepsNeverLaunched(p.config, mid.jobs, SlotOf(mid, p.name), second(p.name));
      }
    }
  }

  // ---- one call -----------------------------------------------------------

  predicate SameEntry(jobs: map<Name, Job>, later: map<Name, Job>, m: Name) {
    (m in later <==> m in jobs) && (m in jobs ==> later[m] == jobs[m])
  }

  /** A call changes no other job than the one it names. */
  lemma CallTouchesOne(w: World, call: Call, io: JobIo, saved: bool, m: Name)
    requires !call.StopAllJobs? && m != call.n
    ensures SameEntry(w.jobs, DoCall(w, call, io, saved).0.jobs, m)
  {
  }

  lemma CreateEffect(w: World, n: Name, c: JobConfig, io: JobIo, saved: bool)
    ensures var (v, ok) := Create(w, n, c, io, saved);
            if ok then n in v.jobs && v.jobs[n] == Job(c, Inactive(Stopped)) else SameEntry(w.jobs, v.jobs, n)
  {
  }

  lemma StopEffect(w: World, n: Name, io: JobIo)
    ensures var (v, ok) := End(w, n, Stopped, io);
            && (ok ==> n in v.jobs && v.jobs[n].state == Inactive(Stopped))
            && (n in w.jobs && w.jobs[n].state == Inactive(Stopped) ==>
                  n in v.jobs && v.jobs[n].state == Inactive(Stopped))
  {
  }

  // ---- the invariant ------------------------------------------------------

  /** The places of the upload job, its guard and one service in the program. */
  datatype Places = Places(stops: seq<Name>, plan: seq<Planned>, upload: nat, guard: nat, service: nat, stop: nat)

  ghost predicate AreInPlace(x: Places) {
    && DistinctNames(x.plan)
    && x.upload <= x.guard < x.service < |x.plan| && x.stop < |x.stops|
    && x.stops[x.stop] == x.plan[x.service].name
    && Guards(x.plan[x.upload], x.plan[x.guard]) && WaitsFor(x.plan[x.service], x.plan[x.guard])
    && forall m :: m in ListOf(x.plan[x.upload].config.needs) ==> NamedBefore(x.plan, x.upload, m)
  }

  predicate NamedBefore(plan: seq<Planned>, k: nat, m: Name)
    requires k <= |plan|
  {
    exists i :: 0 <= i < k && plan[i].name == m
  }

  /** Calls of which at least a part was carried out. */
  function Begun(s: Progress): nat {
    if s.ok then s.done else s.done + 1
  }

  function CreateAt(x: Places, j: nat): nat {
    |x.stops| + 2 * j
  }

  predicate IsStoppedJob(jobs: map<Name, Job>, n: Name) {
    n in jobs && jobs[n].state == Inactive(Stopped)
  }

  /** Created jobs are as planned, and stopped until they are started. */
  ghost predicate Created(x: Places, s: Progress) {
    forall j :: 0 <= j < |x.plan| && CreateAt(x, j) < s.done ==>
      && IsPlanned(s.w.jobs, x.plan[j])
      && (Begun(s) <= CreateAt(x, j) + 1 ==> IsStoppedJob(s.w.jobs, x.plan[j].name))
  }

  ghost predicate ExclusionInv(x: Places, s: Progress)
    requires AreInPlace(x)
  {
    && Created(x, s)
    && (CreateAt(x, x.upload) < s.done ==> UploadGated(s.w.jobs, x.plan[x.upload]))
    && (CreateAt(x, x.guard) + 1 < s.done ==> GuardHolds(s.w.jobs, x.plan[x.upload], x.plan[x.guard]))
    && (x.stop < s.done && Begun(s) <= CreateAt(x, x.service) + 1 ==> IsStoppedJob(s.w.jobs, x.plan[x.service].name))
    && (CreateAt(x, x.service) + 1 < Begun(s) ==> HeldBack(s.w.jobs, x.plan[x.upload], x.plan[x.service]))
  }

  lemma StopKeepsInv(x: Places, s: Progress, step: Step, later: Progress)
    requires AreInPlace(x) && ExclusionInv(x, s) && s.done < |x.stops|
    requires step.NextCall? && IsStep(Program(x.stops, x.plan), s, step, later)
    ensures ExclusionInv(x, later)
  {
    var n := x.stops[s.done];
    assert Program(x.stops, x.plan)[s.done] == StopJob(n);
    StopEffect(s.w, n, step.io);
    var p := x.plan[x.service].name;
    if n != p {
      CallTouchesOne(s.w, StopJob(n), step.io, step.configSaved, p);
    }
  }

  lemma ProgramAt(x: Places, j: nat)
    requires j < |x.plan|
    ensures Program(x.stops, x.plan)[CreateAt(x, j)] == Call.CreateJob(x.plan[j].name, x.plan[j].config)
    ensures Program(x.stops, x.plan)[CreateAt(x, j) + 1] == StartJob(x.plan[j].name)
  {
    assert Calls(x.plan)[2 * j] == Program(x.stops, x.plan)[CreateAt(x, j)];
    assert Calls(x.plan)[2 * j + 1] == Program(x.stops, x.plan)[CreateAt(x, j) + 1];
  }

  /** The other jobs of the plan are left alone by the calls for job `j`. */
  ghost predicate OthersSame(x: Places, jobs: map<Name, Job>, later: map<Name, Job>, j: nat) {
    forall i :: 0 <= i < |x.plan| && i != j ==> SameEntry(jobs, later, x.plan[i].name)
  }

  lemma OthersAreSame(x: Places, w: World, call: Call, io: JobIo, saved: bool, j: nat)
    requires DistinctNames(x.plan) && j < |x.plan| && !call.StopAllJobs? && call.n == x.plan[j].name
    ensures OthersSame(x, w.jobs, DoCall(w, call, io, saved).0.jobs, j)
  {
    forall i | 0 <= i < |x.plan| && i != j
      ensures SameEntry(w.jobs, DoCall(w, call, io, saved).0.jobs, x.plan[i].name)
    {
      CallTouchesOne(w, call, io, saved, x.plan[i].name);
    }
  }

  /** Calls for other jobs leave what the upload needs alone. */
  lemma OthersKeepUploadGate(x: Places, jobs: map<Name, Job>, later: map<Name, Job>, j: nat)
    requires AreInPlace(x) && OthersSame(x, jobs, later, j) && UploadGated(jobs, x.plan[x.upload]) && x.upload < j
    ensures UploadGated(later, x.plan[x.upload])
  {
    assert SameEntry(jobs, later, x.plan[x.upload].name);
    forall m | m in ListOf(x.plan[x.upload].config.needs)
      ensures SameEntry(jobs, later, m)
    {
      var i :| 0 <= i < x.upload && x.plan[i].name == m;
    }
  }

  lemma CreateKeepsExclusion(x: Places, s: Progress, later: Progress, j: nat)
    requires AreInPlace(x) && ExclusionInv(x, s) && j < |x.plan| && s.ok && s.done == CreateAt(x, j)
    requires later.done == (if later.ok then s.done + 1 else s.done) && OthersSame(x, s.w.jobs, later.w.jobs, j)
    requires later.ok ==> IsPlanned(later.w.jobs, x.plan[j]) && IsStoppedJob(later.w.jobs, x.plan[j].name)
    requires !later.ok ==> SameEntry(s.w.jobs, later.w.jobs, x.plan[j].name)
    ensures ExclusionInv(x, later)
  {
    if x.upload < j {
      OthersKeepUploadGate(x, s.w.jobs, later.w.jobs, j);
    }
    assert SameEntry(s.w.jobs, later.w.jobs, x.plan[x.upload].name) || x.upload == j;
    assert SameEntry(s.w.jobs, later.w.jobs, x.plan[x.guard].name) || x.guard == j;
    assert SameEntry(s.w.jobs, later.w.jobs, x.plan[x.service].name) || x.service == j;
  }

  lemma StartKeepsExclusion(x: Places, s: Progress, later: Progress, j: nat)
    requires AreInPlace(x) && ExclusionInv(x, s) && j < |x.plan| && s.ok && s.done == CreateAt(x, j) + 1
    requires later.done == (if later.ok then s.done + 1 else s.done) && OthersSame(x, s.w.jobs, later.w.jobs, j)
    requires IsPlanned(later.w.jobs, x.plan[j]) && IsPending(later.w.jobs[x.plan[j].name].state)
    ensures ExclusionInv(x, later)
  {
    if x.upload < j {
      OthersKeepUploadGate(x, s.w.jobs, later.w.jobs, j);
    }
    assert SameEntry(s.w.jobs, later.w.jobs, x.plan[x.upload].name) || x.upload == j;
    assert SameEntry(s.w.jobs, later.w.jobs, x.plan[x.guard].name) || x.guard == j;
    assert SameEntry(s.w.jobs, later.w.jobs, x.plan[x.service].name) || x.service == j;
  }

  lemma CallKeepsInv(x: Places, s: Progress, step: Step, later: Progress)
    requires AreInPlace(x) && ExclusionInv(x, s) && s.done >= |x.stops|
    requires step.NextCall? && IsStep(Program(x.stops, x.plan), s, step, later)
    ensures ExclusionInv(x, later)
  {
    var j := (s.done - |x.stops|) / 2;
    var p := x.plan[j];
    ProgramAt(x, j);
    if s.done == CreateAt(x, j) {
      OthersAreSame(x, s.w, Call.CreateJob(p.name, p.config), step.io, step.configSaved, j);
      CreateEffect(s.w, p.name, p.config, step.io, step.configSaved);
      CreateKeepsExclusion(x, s, later, j);
    } else {
      assert s.done == CreateAt(x, j) + 1;
      assert IsPlanned(s.w.jobs, p) && IsStoppedJob(s.w.jobs, p.name);
      OthersAreSame(x, s.w, StartJob(p.name), step.io, step.configSaved, j);
      StoppedStart(s.w, p.name, step.io);
      StartKeepsExclusion(x, s, later, j);
    }
  }

  lemma BackgroundHoldsBack(w: World, a: Action, u: Planned, g: Planned, p: Planned)
    requires IsBackground(w, a) && GuardHolds(w.jobs, u, g) && Guards(u, g) && UploadGated(w.jobs, u)
    ensures GuardHolds(Next(w, a).jobs, u, g)
    ensures HeldBack(w.jobs, u, p) && WaitsFor(p, g) ==> HeldBack(Next(w, a).jobs, u, p)
  {
    if a.ManagerPass? {
      PassHoldsBack(w, a.ps, a.first, a.second, u, g, p);
    }
  }

  lemma BackgroundKeepsUploadGate(w: World, a: Action, u: Planned)
    requires IsBackground(w, a) && UploadGated(w.jobs, u)
    ensures UploadGated(Next(w, a).jobs, u)
  {
    if a.ManagerPass? {
      PassKeepsUploadGate(w, a.ps, a.first, a.second, u);
    }
  }

  lemma KeptEndedKeepsExclusion(x: Places, s: Progress, later: Progress)
    requires AreInPlace(x) && ExclusionInv(x, s) && later == s.(w := later.w) && KeepsEnded(s.w.jobs, later.w.jobs)
    requires CreateAt(x, x.upload) < s.done ==> UploadGated(later.w.jobs, x.plan[x.upload])
    requires CreateAt(x, x.guard) + 1 < s.done ==> GuardHolds(later.w.jobs, x.plan[x.upload], x.plan[x.guard])
    requires CreateAt(x, x.service) + 1 < Begun(s) ==> HeldBack(later.w.jobs, x.plan[x.upload], x.plan[x.service])
    ensures ExclusionInv(x, later)
  {
    forall j | 0 <= j < |x.plan| && CreateAt(x, j) < s.done
      ensures IsPlanned(later.w.jobs, x.plan[j])
    {
      assert IsPlanned(s.w.jobs, x.plan[j]);
    }
  }

  lemma BackgroundKeepsExclusion(x: Places, s: Progress, a: Action, later: Progress)
    requires AreInPlace(x) && ExclusionInv(x, s) && IsBackground(s.w, a) && later == s.(w := Next(s.w, a))
    ensures ExclusionInv(x, later)
  {
    BackgroundKeepsEnded(s.w, a);
    if CreateAt(x, x.upload) < s.done {
      BackgroundKeepsUploadGate(s.w, a, x.plan[x.upload]);
    }
    if CreateAt(x, x.guard) + 1 < s.done {
      BackgroundHoldsBack(s.w, a, x.plan[x.upload], x.plan[x.guard], x.plan[x.service]);
    }
    KeptEndedKeepsExclusion(x, s, later);
  }

  lemma {:induction false} ExecutionExcludes(x: Places, states: seq<Progress>, steps: seq<Step>, i: nat)
    requires AreInPlace(x) && IsExecution(Program(x.stops, x.plan), states, steps) && i <= |steps|
    ensures ExclusionInv(x, states[i])
  {
    if i > 0 {
      ExecutionExcludes(x, states, steps, i - 1);
      var s := states[i - 1];
      assert IsStep(Program(x.stops, x.plan), s, steps[i - 1], states[i]);
      match steps[i - 1]
      case Meanwhile(a) => BackgroundKeepsExclusion(x, s, a, states[i]);
      case NextCall(_, _) =>
        if s.done < |x.stops| {
          StopKeepsInv(x, s, steps[i - 1], states[i]);
        } else {
          CallKeepsInv(x, s, steps[i - 1], states[i]);
        }
    }
  }

  // ---- main result --------------------------------------------------------

  /** The upload job was created and started by the program. */
  predicate UploadStarted(c: PluginConfig, s: Progress) {
    |OnProtocolData(c.services)| + 2 * UploadIndex(c) + 1 < s.done
  }

  ghost function PlacesOf(c: PluginConfig, i: nat): Places
    requires HasGuard(c)
  {
    Places(ServiceNames(OnProtocolData(c.services)), UploadPlan(c), UploadIndex(c), Guard(c), ServiceIndex(c, i), i)
  }

  lemma PlacesAreInPlace(c: PluginConfig, i: nat)
    requires IsValid(c) && HasUpload(c) && HasGuard(c) && i < |OnProtocolData(c.services)|
    ensures AreInPlace(PlacesOf(c, i))
  {
    UploadPlanIsDistinct(c);
    GuardIsGuard(c, i);
    UploadNeedsArePlanned(c);
  }

  lemma UploadNeedsArePlanned(c: PluginConfig)
    requires HasUpload(c)
    ensures UploadIndex(c) < |UploadPlan(c)|
    ensures forall m :: m in ListOf(UploadPlan(c)[UploadIndex(c)].config.needs) ==>
              NamedBefore(UploadPlan(c), UploadIndex(c), m)
  {
    UploadPlanAt(c, 0);
    var pre := JobsOf(c.preUpload);
    forall i | 0 <= i < |pre|
      ensures UploadPlan(c)[i].name == pre[i].name == Names(pre)[i]
    {
      PreAt(c, i);
    }
  }

  /** Before its start a service is stopped, after it it is held back. */
  lemma ExclusionHoldsBack(x: Places, s: Progress)
    requires AreInPlace(x) && ExclusionInv(x, s) && CreateAt(x, x.upload) + 1 < s.done
    ensures HeldOrStopped(s.w.jobs, x.plan[x.upload].name, x.plan[x.service].name)
  {
    assert IsPlanned(s.w.jobs, x.plan[x.upload]);
  }

  predicate HeldOrStopped(jobs: map<Name, Job>, upload: Name, service: Name) {
    && upload in jobs && service in jobs
    && (Ended(jobs[upload].state) || NeverLaunched(jobs[service].state))
  }

  /** From its start to its end, whatever becomes of it and of the post-upload
      jobs, the upload job excludes every service that is restarted after it. */
  lemma UploadExcludesServices(c: PluginConfig, states: seq<Progress>, steps: seq<Step>, k: nat, i: nat)
    requires IsValid(c) && HasUpload(c) && HasGuard(c)
    requires IsExecution(UploadCalls(c), states, steps) && k <= |steps| && UploadStarted(c, states[k])
    requires i < |OnProtocolData(c.services)|
    ensures HeldOrStopped(states[k].w.jobs, UPLOAD, OnProtocolData(c.services)[i].name)
  {
    var x := PlacesOf(c, i);
    PlacesAreInPlace(c, i);
    ExecutionExcludes(x, states, steps, k);
    ExclusionHoldsBack(x, states[k]);
    UploadName(c);
  }

  lemma UploadName(c: PluginConfig)
    requires HasUpload(c)
    ensures UploadIndex(c) < |UploadPlan(c)| && UploadPlan(c)[UploadIndex(c)].name == UPLOAD
  {
    UploadPlanAt(c, 0);
  }

  // ---- why the guard is as it is ------------------------------------------

  /** The order matters: a post-upload job that needs a later one of the upload's
      needs is over while the upload still waits for an earlier one. */
  lemma LaterNeedIsNoGuard(deps: map<Name, Job>, u: JobConfig, job: PlannedJob, j: nat)
    requires 0 < j < |ListOf(u.needs)| && ListOf(job.needs) == [ListOf(u.needs)[j]]
    requires ListOf(u.needs)[0] in deps && !Ended(deps[ListOf(u.needs)[0]].state)
    requires ListOf(u.needs)[j] in deps && Ended(deps[ListOf(u.needs)[j]].state)
    requires !Succeeded(deps[ListOf(u.needs)[j]].state)
    ensures DepsOf(deps, u).NotYet? && DepsOf(deps, PlanJob(job, [UPLOAD]).config).Broken?
  {
    FirstNeedDecides(deps, u, 0);
    PlannedNeeds(job, [UPLOAD]);
    FirstNeedDecides(deps, PlanJob(job, [UPLOAD]).config, 0);
  }

  // ---- why the guard is needed --------------------------------------------

  /** A post-upload job that needs something undefined is over at once, however
      the upload is doing. */
  lemma OwnNeedEndsAtOnce(deps: map<Name, Job>, job: PlannedJob, m: Name)
    requires job.needs.Some? && job.needs.value != [] && job.needs.value[0] == m && m !in deps
    ensures DepsOf(deps, PlanJob(job, [UPLOAD]).config).Broken?
  {
    assert (job.needs.value + [UPLOAD])[0] == m;
  }

  /** And once all post-upload jobs are over the services may start, even while
      the upload is running. */
  lemma ServicesDoNotWaitForUpload(deps: map<Name, Job>, posts: seq<PlannedJob>, s: Service)
    requires posts != [] && s.useProtocolData
    requires forall n :: n in Names(posts) ==> n in deps && Ended(deps[n].state)
    ensures DepsOf(deps, PlanService(s, [], NeedsAfter(posts, [UPLOAD])).config).AllDone?
  {
    AllDoneIff(deps, PlanService(s, [], NeedsAfter(posts, [UPLOAD])).config);
  }
}
