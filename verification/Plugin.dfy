/** The plugin configuration, its validation, and the jobs that the default
    `init` and `upload` functions create and start. */
module Plugin {
  import opened Layout
  import opened Jobs

  const UPLOAD: Name := "upload"
  const DOWNLOAD: Name := "download"     // also the name of the cold init job

  datatype PlannedJob = PlannedJob(name: Name, needs: Option<seq<Name>>, restart: Option<RestartPolicy>)
  datatype Actions = Actions(commands: seq<string>, jobs: seq<PlannedJob>)
  datatype Service = Service(name: Name, useProtocolData: bool, archive: bool,
                             dataDir: Option<string>, storeKey: Option<string>)

  datatype PluginConfig = PluginConfig(
    auxServices: Option<seq<Name>>,
    init: Option<Actions>,
    alternativeDownload: Option<RestartPolicy>,
    postDownload: Option<seq<PlannedJob>>,
    coldInit: Option<RestartPolicy>,
    services: seq<Service>,
    preUpload: Option<Actions>,
    postUpload: Option<seq<PlannedJob>>,
    scheduled: Option<seq<Name>>)

  // ---- validation ---------------------------------------------------------

  function Names(jobs: seq<PlannedJob>): seq<Name> {
    seq(|jobs|, i requires 0 <= i < |jobs| => jobs[i].name)
  }

  function ServiceNames(services: seq<Service>): seq<Name> {
    seq(|services|, i requires 0 <= i < |services| => services[i].name)
  }

  function JobsOf(actions: Option<Actions>): seq<PlannedJob> {
    match actions case None => [] case Some(a) => a.jobs
  }

  /** All names a plugin may give to a job, in the order they are checked. */
  function AllNames(c: PluginConfig): seq<Name> {
    [UPLOAD, DOWNLOAD] + ListOf(c.auxServices) + Names(JobsOf(c.init)) + Names(ListOf(c.postDownload))
    + ServiceNames(c.services) + Names(JobsOf(c.preUpload)) + Names(ListOf(c.postUpload))
  }

  predicate IsKeyChar(ch: char) {
    'a' <= ch <= 'z' || 'A' <= ch <= 'Z' || '0' <= ch <= '9' || ch == '-' || ch == '_'
  }

  predicate HasParent(dir: string) {
    exists i :: 0 <= i < |dir| - 1 && dir[i] == '.' && dir[i + 1] == '.'
  }

  predicate IsValidService(s: Service) {
    && (s.archive ==> s.storeKey.Some?)
    && (s.dataDir.Some? ==> s.dataDir.value != "" && s.dataDir.value[0] != '/' && !HasParent(s.dataDir.value))
    && (s.storeKey.Some? ==> s.storeKey.value != "" && forall i :: 0 <= i < |s.storeKey.value| ==>
      IsKeyChar(s.storeKey.value[i]))
  }

  ghost predicate IsValid(c: PluginConfig) {
    && NoRepeats(ListOf(c.scheduled))
    && NoRepeats(AllNames(c))
    && forall i :: 0 <= i < |c.services| ==> IsValidService(c.services[i])
  }

  /** `iter().all(|x| unique.insert(x))` */
  method InsertAll(unique: set<Name>, names: seq<Name>, ghost before: seq<Name>) returns (ok: bool, r: set<Name>)
    requires NoRepeats(before) && forall n :: n in unique <==> n in before
    ensures ok <==> NoRepeats(before + names)
    ensures ok ==> forall n :: n in r <==> n in before + names
  {
    r, ok := unique, true;
    for i := 0 to |names|
      invariant NoRepeats(before + names[..i]) && forall n :: n in r <==> n in before + names[..i]
    {
      InsertOne(before, names, i);
      if names[i] in r {
        return false, r;
      }
      r := r + {names[i]};
    }
    assert names[..|names|] == names;
  }

  lemma InsertOne(before: seq<Name>, names: seq<Name>, i: nat)
    requires i < |names| && NoRepeats(before + names[..i])
    ensures names[i] in before + names[..i] ==> !NoRepeats(before + names)
    ensures names[i] !in before + names[..i] ==> NoRepeats(before + names[..i + 1])
    ensures before + names[..i + 1] == before + names[..i] + [names[i]]
  {
    var all := before + names;
    assert before + names[..i + 1] == before + names[..i] + [names[i]];
    var some := before + names[..i];
    if k :| 0 <= k < |some| && some[k] == names[i] {
      assert all[k] == all[|before| + i];
    } else {
      assert before + names[..i + 1] == some + [names[i]];
      assert forall k :: 0 <= k < |some| ==> some[k] in some;
    }
  }

  method ValidateServices(services: seq<Service>) returns (ok: bool)
    ensures ok <==> forall i :: 0 <= i < |services| ==> IsValidService(services[i])
  {
    for k := 0 to |services|
      invariant forall i :: 0 <= i < k ==> IsValidService(services[i])
    {
      var s := services[k];
      if s.archive && s.storeKey.None? {
        return false;
      }
      if s.dataDir.Some? {
        var dir := s.dataDir.value;
        if |dir| == 0 || dir[0] == '/' || HasParent(dir) {
          return false;
        }
      }
      if s.storeKey.Some? {
        var key := s.storeKey.value;
        if |key| == 0 || exists i :: 0 <= i < |key| && !IsKeyChar(key[i]) {
          return false;
        }
      }
    }
    ok := true;
  }

  /** Names are unique across all sections that can be started together, the
      two reserved ones included. */
  method Validate(c: PluginConfig) returns (ok: bool)
    ensures ok <==> IsValid(c)
  {
    var unique;
    ok, unique := InsertAll({}, ListOf(c.scheduled), []);
    assert [] + ListOf(c.scheduled) == ListOf(c.scheduled);
    if !ok {
      return;
    }
    var names := Sections(c);
    SectionsAreAll(c);
    ok := UniqueSections(names);
    if ok {
      ok := ValidateServices(c.services);
    }
  }

  function Sections(c: PluginConfig): seq<seq<Name>> {
    [ListOf(c.auxServices), Names(JobsOf(c.init)), Names(ListOf(c.postDownload)),
     ServiceNames(c.services), Names(JobsOf(c.preUpload)), Names(ListOf(c.postUpload))]
  }

  lemma SectionsAreAll(c: PluginConfig)
    ensures [UPLOAD, DOWNLOAD] + Flatten(Sections(c)) == AllNames(c)
  {
    var a, b, d := ListOf(c.auxServices), Names(JobsOf(c.init)), Names(ListOf(c.postDownload));
    var e, f, g := ServiceNames(c.services), Names(JobsOf(c.preUpload)), Names(ListOf(c.postUpload));
    FlattenSix(a, b, d, e, f, g);
  }

  lemma FlattenSix(a: seq<Name>, b: seq<Name>, c: seq<Name>, d: seq<Name>, e: seq<Name>, f: seq<Name>)
    ensures Flatten([a, b, c, d, e, f]) == a + b + c + d + e + f
  {
    assert [a, b, c, d, e, f] == [a, b, c] + [d, e, f];
    FlattenConcat([a, b, c], [d, e, f]);
    FlattenThree(a, b, c);
    FlattenThree(d, e, f);
  }

  lemma FlattenThree(a: seq<Name>, b: seq<Name>, c: seq<Name>)
    ensures Flatten([a, b, c]) == a + b + c
  {
    assert [a, b, c][1..] == [b, c] && [b, c][1..] == [c] && [c][1..] == [];
    assert Flatten([c]) == c + [];
  }

  method UniqueSections(sections: seq<seq<Name>>) returns (ok: bool)
    ensures ok <==> NoRepeats([UPLOAD, DOWNLOAD] + Flatten(sections))
  {
    var unique: set<Name> := {UPLOAD, DOWNLOAD};
    ghost var reserved: seq<Name> := [UPLOAD, DOWNLOAD];
    assert UPLOAD[0] != DOWNLOAD[0];
    assert reserved + Flatten(sections[..0]) == reserved;
    for i := 0 to |sections|
      invariant NoRepeats(reserved + Flatten(sections[..i]))
      invariant forall n :: n in unique <==> n in reserved + Flatten(sections[..i])
    {
      ghost var before := reserved + Flatten(sections[..i]);
      ok, unique := InsertAll(unique, sections[i], before);
      assert sections[..i + 1] == sections[..i] + [sections[i]];
      FlattenAppend(sections[..i], sections[i]);
      Associate(reserved, Flatten(sections[..i]), sections[i]);
      if !ok {
        assert sections == sections[..i + 1] + sections[i + 1..];
        FlattenConcat(sections[..i + 1], sections[i + 1..]);
        Associate(reserved, Flatten(sections[..i + 1]), Flatten(sections[i + 1..]));
        NoRepeatsConcat(before + sections[i], Flatten(sections[i + 1..]));
        return;
      }
    }
    assert sections[..|sections|] == sections;
    ok := true;
  }

  // ---- the jobs that are created and started ------------------------------

  datatype Planned = Planned(name: Name, config: JobConfig)

  /** Plain jobs add their own needs before those of their stage. */
  function PlanJob(job: PlannedJob, needs: seq<Name>): Planned {
    Planned(job.name, JobConfig(
      Some(match job.needs case Some(own) => own + needs case None => needs), None,
      match job.restart case Some(r) => r case None => Never))
  }

  function PlanJobs(jobs: seq<PlannedJob>, needs: seq<Name>): seq<Planned> {
    seq(|jobs|, i requires 0 <= i < |jobs| => PlanJob(jobs[i], needs))
  }

  /** What the next stage needs: the jobs of this one, or what it needed. */
  function NeedsAfter(jobs: seq<PlannedJob>, needs: seq<Name>): seq<Name> {
    if jobs == [] then needs else Names(jobs)
  }

  /** Only services on protocol data wait for anything. */
  function PlanService(s: Service, needs: seq<Name>, waitFor: seq<Name>): Planned {
    Planned(s.name, JobConfig(if s.useProtocolData then Some(needs) else None,
                              if s.useProtocolData then Some(waitFor) else None, Always))
  }

  function PlanServices(services: seq<Service>, needs: seq<Name>, waitFor: seq<Name>): seq<Planned> {
    seq(|services|, i requires 0 <= i < |services| => PlanService(services[i], needs, waitFor))
  }

  function PlanAux(names: seq<Name>): seq<Planned> {
    seq(|names|, i requires 0 <= i < |names| => Planned(names[i], JobConfig(None, None, Always)))
  }

  predicate IsMultiClient(services: seq<Service>) {
    exists i :: 0 <= i < |services| && services[i].archive && services[i].storeKey.Some?
  }

  /** The job that brings the protocol data, if one is created: its restart
      policy, and whether post-download jobs follow it. */
  function DataJob(c: PluginConfig, stamped: bool): Option<(RestartPolicy, bool)> {
    if IsMultiClient(c.services) then Some((OnFailure, true))
    else if stamped then None
    else if c.alternativeDownload.Some? then Some((c.alternativeDownload.value, true))
    else if c.coldInit.Some? then Some((c.coldInit.value, false))
    else None
  }

  function PlanData(c: PluginConfig, stamped: bool, needs: seq<Name>): (r: (seq<Planned>, seq<Name>)) {
    match DataJob(c, stamped)
    case None => ([], needs)
    case Some((restart, post)) =>
      var job := Planned(DOWNLOAD, JobConfig(Some(needs), None, restart));
      if post then
        ([job] + PlanJobs(ListOf(c.postDownload), [DOWNLOAD]), NeedsAfter(ListOf(c.postDownload), [DOWNLOAD]))
      else ([job], [DOWNLOAD])
  }

  /** Everything that `default_init` creates and starts, in order. */
  function InitPlan(c: PluginConfig, stamped: bool): seq<Planned> {
    var data := PlanData(c, stamped, NeedsAfter(JobsOf(c.init), []));
    PlanAux(ListOf(c.auxServices)) + PlanJobs(JobsOf(c.init), []) + data.0 + PlanServices(c.services, data.1, [])
  }

  function OnProtocolData(services: seq<Service>): (r: seq<Service>)
    ensures forall s :: s in r <==> s in services && s.useProtocolData
  {
    if services == [] then []
    else OnProtocolData(services[..|services| - 1]) +
         if services[|services| - 1].useProtocolData then [services[|services| - 1]] else []
  }

  function UploadJob(c: PluginConfig, needs: seq<Name>): (seq<Planned>, seq<Name>) {
    if IsMultiClient(OnProtocolData(c.services))
    then ([Planned(UPLOAD, JobConfig(Some(needs), None, OnFailure))], [UPLOAD])
    else ([], needs)
  }

  /** Everything that `default_upload` creates and starts, in order. */
  function UploadPlan(c: PluginConfig): seq<Planned> {
    var upload := UploadJob(c, NeedsAfter(JobsOf(c.preUpload), []));
    PlanJobs(JobsOf(c.preUpload), []) + upload.0 + PlanJobs(ListOf(c.postUpload), upload.1)
    + PlanServices(OnProtocolData(c.services), [], NeedsAfter(ListOf(c.postUpload), upload.1))
  }

  // ---- the calls to the engine --------------------------------------------

  datatype Call = StopAllJobs | StopJob(n: Name) | CreateJob(n: Name, config: JobConfig) | StartJob(n: Name)

  /** Each planned job is created, then started. */
  function Calls(plan: seq<Planned>): (r: seq<Call>)
    ensures |r| == 2 * |plan|
  {
    seq(2 * |plan|, i requires 0 <= i < 2 * |plan| =>
      if i % 2 == 0 then CreateJob(plan[i / 2].name, plan[i / 2].config) else StartJob(plan[i / 2].name))
  }

  function Stops(names: seq<Name>): (r: seq<Call>)
    ensures |r| == |names|
  {
    seq(|names|, i requires 0 <= i < |names| => StopJob(names[i]))
  }

  lemma CallsConcat(a: seq<Planned>, b: seq<Planned>)
    ensures Calls(a + b) == Calls(a) + Calls(b)
  {
  }

  class BarePlugin {
    const config: PluginConfig
    const answers: nat -> bool            // whether the i-th call succeeds
    const commandSucceeds: string -> bool
    var calls: seq<Call>

    constructor (config: PluginConfig, answers: nat -> bool, commandSucceeds: string -> bool)
      ensures this.config == config && calls == []
    {
      this.config, this.answers, this.commandSucceeds := config, answers, commandSucceeds;
      calls := [];
    }

    /** `all` was called up to the first call that failed, which is the result. */
    ghost predicate Did(before: seq<Call>, after: seq<Call>, ok: bool, all: seq<Call>) {
      if ok then after == before + all && Answered(|before|, |after|)
      else
        && |before| < |after| && after <= before + all
        && Answered(|before|, |after| - 1) && !answers(|after| - 1)
    }

    ghost predicate Answered(start: nat, end: nat) {
      forall i :: start <= i < end ==> answers(i)
    }

    /** It went no further than `part`, although all of that may have succeeded. */
    ghost predicate WentNoFurther(before: seq<Call>, after: seq<Call>, ok: bool, part: seq<Call>) {
      !ok && (Did(before, after, true, part) || Did(before, after, false, part))
    }

    lemma DidThen(start: seq<Call>, mid: seq<Call>, after: seq<Call>, ok: bool, p: seq<Call>, q: seq<Call>)
      requires Did(start, mid, true, p) && Did(mid, after, ok, q)
      ensures Did(start, after, ok, p + q)
    {
      Associate(start, p, q);
    }

    lemma DidPart(start: seq<Call>, after: seq<Call>, p: seq<Call>, q: seq<Call>)
      requires Did(start, after, false, p)
      ensures Did(start, after, false, p + q)
    {
      Associate(start, p, q);
    }

    lemma DidMore(start: seq<Call>, before: seq<Call>, after: seq<Call>, ok: bool, plan: seq<Planned>, i: nat)
      requires i < |plan| && Did(start, before, true, Calls(plan[..i])) && Did(before, after, ok, Calls([plan[i]]))
      ensures ok ==> Did(start, after, true, Calls(plan[..i + 1]))
      ensures !ok ==> Did(start, after, false, Calls(plan))
    {
      assert plan[..i + 1] == plan[..i] + [plan[i]];
      CallsConcat(plan[..i], [plan[i]]);
      DidThen(start, before, after, ok, Calls(plan[..i]), Calls([plan[i]]));
      if !ok {
        assert plan == plan[..i + 1] + plan[i + 1..];
        CallsConcat(plan[..i + 1], plan[i + 1..]);
        DidPart(start, after, Calls(plan[..i + 1]), Calls(plan[i + 1..]));
      }
    }

    lemma DidNothing(before: seq<Call>)
      ensures Did(before, before, true, Calls([]))
    {
      assert Calls([]) == [];
    }

    method CreateAndStartJob(name: Name, config: JobConfig) returns (ok: bool)
      modifies this`calls
      ensures Did(old(calls), calls, ok, Calls([Planned(name, config)]))
    {
      assert Calls([Planned(name, config)]) == [CreateJob(name, config), StartJob(name)];
      ghost var before := calls;
      calls := calls + [CreateJob(name, config)];
      assert before + [CreateJob(name, config), StartJob(name)] == calls + [StartJob(name)];
      if !answers(|calls| - 1) {
        return false;
      }
      calls := calls + [StartJob(name)];
      ok := answers(|calls| - 1);
    }

    method RunJobs(jobs: Option<seq<PlannedJob>>, needs: seq<Name>) returns (ok: bool, started: seq<Name>)
      modifies this`calls
      ensures Did(old(calls), calls, ok, Calls(PlanJobs(ListOf(jobs), needs)))
      ensures ok ==> started == NeedsAfter(ListOf(jobs), needs)
    {
      ok, started := true, needs;
      DidNothing(calls);
      if jobs.None? {
        assert PlanJobs([], needs) == [];
        return;
      }
      var names: seq<Name> := [];
      ghost var plan := PlanJobs(jobs.value, needs);
      assert plan[..0] == [];
      for i := 0 to |jobs.value|
        invariant Did(old(calls), calls, true, Calls(plan[..i]))
        invariant names == Names(jobs.value[..i])
      {
        var job := jobs.value[i];
        if job.needs.Some? {
          job := job.(needs := Some(job.needs.value + needs));
        } else {
          job := job.(needs := Some(needs));
        }
        var restart := match job.restart case Some(r) => r case None => Never;
        ghost var before := calls;
        ok := CreateAndStartJob(job.name, JobConfig(job.needs, None, restart));
        DidMore(old(calls), before, calls, ok, plan, i);
        if !ok {
          return;
        }
        names := names + [job.name];
      }
      assert plan[..|plan|] == plan && jobs.value[..|jobs.value|] == jobs.value;
      ok := true;
      if |names| > 0 {
        started := names;
      }
    }

    predicate CommandsSucceed(actions: Option<Actions>) {
      actions.Some? ==> forall i :: 0 <= i < |actions.value.commands| ==> commandSucceeds(actions.value.commands[i])
    }

    /** A command that fails ends the function before any job is created. */
    method RunActions(actions: Option<Actions>, needs: seq<Name>) returns (ok: bool, started: seq<Name>)
      modifies this`calls
      ensures !CommandsSucceed(actions) ==> !ok && calls == old(calls)
      ensures CommandsSucceed(actions) ==> Did(old(calls), calls, ok, Calls(PlanJobs(JobsOf(actions), needs)))
      ensures ok ==> started == NeedsAfter(JobsOf(actions), needs)
    {
      if actions.Some? {
        for i := 0 to |actions.value.commands|
          invariant calls == old(calls)
          invariant forall k :: 0 <= k < i ==> commandSucceeds(actions.value.commands[k])
        {
          if !commandSucceeds(actions.value.commands[i]) {
            return false, [];
          }
        }
        ok, started := RunJobs(Some(actions.value.jobs), needs);
      } else {
        ok, started := true, needs;
        DidNothing(calls);
        assert PlanJobs([], needs) == [];
      }
    }

    method StartAuxServices(names: Option<seq<Name>>) returns (ok: bool)
      modifies this`calls
      ensures Did(old(calls), calls, ok, Calls(PlanAux(ListOf(names))))
    {
      ok := true;
      ghost var plan := PlanAux(ListOf(names));
      DidNothing(calls);
      assert plan[..0] == [];
      if names.Some? {
        for i := 0 to |names.value|
          invariant Did(old(calls), calls, true, Calls(plan[..i]))
        {
          ghost var before := calls;
          ok := CreateAndStartJob(names.value[i], JobConfig(None, None, Always));
          DidMore(old(calls), before, calls, ok, plan, i);
          if !ok {
            return;
          }
        }
        ok := true;
      }
      assert plan[..|plan|] == plan;
    }

    method StartServices(services: seq<Service>, needs: seq<Name>, waitFor: seq<Name>) returns (ok: bool)
      modifies this`calls
      ensures Did(old(calls), calls, ok, Calls(PlanServices(services, needs, waitFor)))
    {
      ghost var plan := PlanServices(services, needs, waitFor);
      DidNothing(calls);
      assert plan[..0] == [];
      for i := 0 to |services|
        invariant Did(old(calls), calls, true, Calls(plan[..i]))
      {
        var s := services[i];
        ghost var before := calls;
        ok := CreateAndStartJob(s.name, JobConfig(if s.useProtocolData then Some(needs) else None,
                                                  if s.useProtocolData then Some(waitFor) else None, Always));
        DidMore(old(calls), before, calls, ok, plan, i);
        if !ok {
          return;
        }
      }
      assert plan[..|plan|] == plan;
      ok := true;
    }

    /** Whether it can be told if there is data already, where that matters. */
    predicate KnowsData(stamp: Option<bool>) {
      IsMultiClient(config.services) || stamp.Some?
    }

    /** `default_init`; `stamp` is the protocol data stamp, if it can be read. It
        ends with the first call that fails, or before the jobs of the first stage
        that cannot be entered. */
    method DefaultInit(stamp: Option<bool>) returns (ok: bool)
      requires calls == []
      modifies this`calls
      ensures !CommandsSucceed(config.init) ==> WentNoFurther([], calls, ok, AuxCalls())
      ensures CommandsSucceed(config.init) && !KnowsData(stamp) ==>
              WentNoFurther([], calls, ok, AuxCalls() + InitCalls())
      ensures CommandsSucceed(config.init) && KnowsData(stamp) ==>
                Did([], calls, ok, [StopAllJobs] + Calls(InitPlan(config, stamp == Some(true))))
    {
      ghost var data := PlanData(config, stamp == Some(true), NeedsAfter(JobsOf(config.init), []));
      ghost var rest := Calls(data.0) + Calls(PlanServices(config.services, data.1, []));
      InitCallsAre(stamp == Some(true));
      ok := StopAndStartAux();
      if !ok {
        DidPart([], calls, AuxCalls(), InitCalls());
        DidPart([], calls, AuxCalls() + InitCalls(), rest);
        return;
      }
      var needs;
      ghost var before := calls;
      ok, needs := RunActions(config.init, []);
      if CommandsSucceed(config.init) {
        DidThen([], before, calls, ok, AuxCalls(), InitCalls());
      }
      if !ok {
        if CommandsSucceed(config.init) {
          DidPart([], calls, AuxCalls() + InitCalls(), rest);
        }
        return;
      }
      ok := StartDataAndServices(stamp, needs);
    }

    ghost function AuxCalls(): seq<Call> {
      [StopAllJobs] + Calls(PlanAux(ListOf(config.auxServices)))
    }

    ghost function InitCalls(): seq<Call> {
      Calls(PlanJobs(JobsOf(config.init), []))
    }

    lemma InitCallsAre(stamped: bool)
      ensures var data := PlanData(config, stamped, NeedsAfter(JobsOf(config.init), []));
              [StopAllJobs] + Calls(InitPlan(config, stamped)) ==
              AuxCalls() + InitCalls() + (Calls(data.0) + Calls(PlanServices(config.services, data.1, [])))
    {
      var data := PlanData(config, stamped, NeedsAfter(JobsOf(config.init), []));
      var services := PlanServices(config.services, data.1, []);
      FourParts([StopAllJobs], PlanAux(ListOf(config.auxServices)), PlanJobs(JobsOf(config.init), []), data.0,
        services);
      Associate(AuxCalls() + InitCalls(), Calls(data.0), Calls(services));
    }

    method StopAndStartAux() returns (ok: bool)
      requires calls == []
      modifies this`calls
      ensures Did([], calls, ok, AuxCalls())
    {
      calls := [StopAllJobs];
      if !answers(0) {
        return false;
      }
      ghost var before := calls;
      ok := StartAuxServices(config.auxServices);
      DidThen([], before, calls, ok, [StopAllJobs], Calls(PlanAux(ListOf(config.auxServices))));
    }

    method StartDataAndServices(stamp: Option<bool>, needs: seq<Name>) returns (ok: bool)
      requires needs == NeedsAfter(JobsOf(config.init), [])
      requires Did([], calls, true, AuxCalls() + InitCalls())
      modifies this`calls
      ensures !KnowsData(stamp) ==> !ok && calls == old(calls)
      ensures KnowsData(stamp) ==> Did([], calls, ok, [StopAllJobs] + Calls(InitPlan(config, stamp == Some(true))))
    {
      ghost var start := AuxCalls() + InitCalls();
      ghost var data := PlanData(config, stamp == Some(true), needs);
      ghost var services := Calls(PlanServices(config.services, data.1, []));
      InitCallsAre(stamp == Some(true));
      ghost var before := calls;
      var next;
      ok, next := StartDataJobs(stamp, needs);
      if !KnowsData(stamp) {
        return;
      }
      if !ok {
        DidPart(before, calls, Calls(data.0), services);
        DidThen([], before, calls, ok, start, Calls(data.0) + services);
        return;
      }
      ghost var mid := calls;
      ok := StartServices(config.services, next, []);
      DidThen(before, mid, calls, ok, Calls(data.0), services);
      DidThen([], before, calls, ok, start, Calls(data.0) + services);
    }

    method StartDataJobs(stamp: Option<bool>, needs: seq<Name>) returns (ok: bool, started: seq<Name>)
      modifies this`calls
      ensures !KnowsData(stamp) ==> !ok && calls == old(calls)
      ensures KnowsData(stamp) ==> Did(old(calls), calls, ok, Calls(PlanData(config, stamp == Some(true), needs).0))
      ensures ok ==> started == PlanData(config, stamp == Some(true), needs).1
    {
      var restart := OnFailure;
      var post := true;
      ok, started := true, needs;
      if !IsMultiClient(config.services) {
        if stamp.None? {
          return false, [];
        }
        if stamp.value || (config.alternativeDownload.None? && config.coldInit.None?) {
          DidNothing(calls);
          return;
        }
        post := config.alternativeDownload.Some?;
        restart := if post then config.alternativeDownload.value else config.coldInit.value;
      }
      ghost var job := Planned(DOWNLOAD, JobConfig(Some(needs), None, restart));
      ghost var plan := PlanJobs(ListOf(config.postDownload), [DOWNLOAD]);
      CallsConcat([job], plan);
      ok := CreateAndStartJob(DOWNLOAD, JobConfig(Some(needs), None, restart));
      started := [DOWNLOAD];
      if post {
        if !ok {
          DidPart(old(calls), calls, Calls([job]), Calls(plan));
          return;
        }
        ghost var before := calls;
        ok, started := RunJobs(config.postDownload, [DOWNLOAD]);
        DidThen(old(calls), before, calls, ok, Calls([job]), Calls(plan));
      }
    }

    method StopServices(services: seq<Service>) returns (ok: bool)
      requires calls == []
      modifies this`calls
      ensures Did([], calls, ok, Stops(ServiceNames(services)))
    {
      for i := 0 to |services|
        invariant calls == Stops(ServiceNames(services))[..i] && Answered(0, i)
      {
        calls := calls + [StopJob(services[i].name)];
        if !answers(i) {
          return false;
        }
      }
      ok := true;
    }

    /** Without a service to archive there is no upload job. */
    method StartUploadJob(needs: seq<Name>) returns (ok: bool, started: seq<Name>)
      modifies this`calls
      ensures Did(old(calls), calls, ok, Calls(UploadJob(config, needs).0))
      ensures ok ==> started == UploadJob(config, needs).1
    {
      ok, started := true, needs;
      if IsMultiClient(OnProtocolData(config.services)) {
        ok := CreateAndStartJob(UPLOAD, JobConfig(Some(needs), None, OnFailure));
        started := [UPLOAD];
      } else {
        DidNothing(calls);
      }
    }

    /** `default_upload` touches only the services on protocol data. */
    method DefaultUpload() returns (ok: bool)
      requires calls == []
      modifies this`calls
      ensures !CommandsSucceed(config.preUpload) ==>
                WentNoFurther([], calls, ok, Stops(ServiceNames(OnProtocolData(config.services))))
      ensures CommandsSucceed(config.preUpload) ==>
                Did([], calls, ok, Stops(ServiceNames(OnProtocolData(config.services))) + Calls(UploadPlan(config)))
    {
      var services := OnProtocolData(config.services);
      ghost var stops := Stops(ServiceNames(services));
      ok := StopServices(services);
      if !ok {
        DidPart([], calls, stops, Calls(UploadPlan(config)));
        return;
      }
      ghost var before := calls;
      var needs;
      ok, needs := RunActions(config.preUpload, []);
      if !CommandsSucceed(config.preUpload) {
        return;
      }
      ghost var pre := Calls(PlanJobs(JobsOf(config.preUpload), []));
      UploadCallsAre();
      if !ok {
        DidPart(before, calls, pre, UploadRest());
      } else {
        ghost var mid := calls;
        ok := StartUploadAndServices(needs);
        DidThen(before, mid, calls, ok, pre, UploadRest());
      }
      DidThen([], before, calls, ok, stops, Calls(UploadPlan(config)));
    }

    /** The calls for the upload, what follows it, and the services. */
    ghost function UploadRest(): seq<Call> {
      var upload := UploadJob(config, NeedsAfter(JobsOf(config.preUpload), []));
      var post := NeedsAfter(ListOf(config.postUpload), upload.1);
      Calls(upload.0) + (Calls(PlanJobs(ListOf(config.postUpload), upload.1))
                         + Calls(PlanServices(OnProtocolData(config.services), [], post)))
    }

    lemma UploadCallsAre()
      ensures Calls(UploadPlan(config)) == Calls(PlanJobs(JobsOf(config.preUpload), [])) + UploadRest()
    {
      var upload := UploadJob(config, NeedsAfter(JobsOf(config.preUpload), []));
      var pre, posts := PlanJobs(JobsOf(config.preUpload), []), PlanJobs(ListOf(config.postUpload), upload.1);
      var services := PlanServices(OnProtocolData(config.services), [], NeedsAfter(ListOf(config.postUpload),
        upload.1));
      CallsOfFour(pre, upload.0, posts, services);
    }

    method StartUploadAndServices(needs: seq<Name>) returns (ok: bool)
      requires needs == NeedsAfter(JobsOf(config.preUpload), [])
      modifies this`calls
      ensures Did(old(calls), calls, ok, UploadRest())
    {
      ghost var upload := UploadJob(config, needs);
      ghost var posts := Calls(PlanJobs(ListOf(config.postUpload), upload.1));
      ghost var last := Calls(PlanServices(OnProtocolData(config.services), [],
        NeedsAfter(ListOf(config.postUpload), upload.1)));
      ghost var start := calls;
      var next;
      ok, next := StartUploadJob(needs);
      if !ok {
        DidPart(start, calls, Calls(upload.0), posts + last);
        return;
      }
      ghost var before := calls;
      ok, next := RunJobs(config.postUpload, next);
      if !ok {
        DidPart(before, calls, posts, last);
      } else {
        ghost var mid := calls;
        ok := StartServices(OnProtocolData(config.services), [], next);
        DidThen(before, mid, calls, ok, posts, last);
      }
      DidThen(start, before, calls, ok, Calls(upload.0), posts + last);
    }
  }

  lemma CallsOfFour(p1: seq<Planned>, p2: seq<Planned>, p3: seq<Planned>, p4: seq<Planned>)
    ensures Calls(p1 + p2 + p3 + p4) == Calls(p1) + (Calls(p2) + (Calls(p3) + Calls(p4)))
  {
    Associate(p1 + p2, p3, p4);
    Associate(p1, p2, p3 + p4);
    CallsConcat(p1, p2 + (p3 + p4));
    CallsConcat(p2, p3 + p4);
    CallsConcat(p3, p4);
  }

  lemma FourParts(start: seq<Call>, p1: seq<Planned>, p2: seq<Planned>, p3: seq<Planned>, p4: seq<Planned>)
    ensures start + Calls(p1 + p2 + p3 + p4) == start + Calls(p1) + Calls(p2) + Calls(p3) + Calls(p4)
  {
    CallsConcat(p1 + p2 + p3, p4);
    CallsConcat(p1 + p2, p3);
    CallsConcat(p1, p2);
    Associate(start, Calls(p1), Calls(p2));
    Associate(start, Calls(p1) + Calls(p2), Calls(p3));
    Associate(start, Calls(p1) + Calls(p2) + Calls(p3), Calls(p4));
  }
}
