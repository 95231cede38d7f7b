/** What repeated passes of the manager come to: they reach a fixpoint, there no
    job of an acyclic graph is left waiting for nothing, and a job on a cycle of
    needs is never launched. */
module JobsLiveness {
  import opened Layout
  import opened Jobs
  import opened JobsManager
  import opened JobsSafety

  // ---- settled jobs -------------------------------------------------------

  predicate IsRunningNow(w: World, s: JobState) {
    s.Active? && s.pid in Pids(w)
  }

  predicate IsSettled(w: World, s: JobState) {
    IsRunningNow(w, s) || Ended(s)
  }

  predicate IsWaiting(w: World, n: Name)
    requires n in w.jobs
  {
    && w.jobs[n].state.Inactive? && w.jobs[n].state.status.Pending?
    && DepsOf(w.jobs, w.jobs[n].config).NotYet?
  }

  function Unsettled(w: World): set<Name> {
    set n | n in w.jobs && !IsSettled(w, w.jobs[n].state)
  }

  ghost predicate Quiet(w: World) {
    forall n :: n in w.jobs ==> IsSettled(w, w.jobs[n].state) || IsWaiting(w, n)
  }

  ghost predicate AllGood(io: Io) {
    forall n :: IsGood(io(n))
  }

  /** One pass of a manager that sees exactly the processes that run. */
  function QuickPass(w: World, first: Io, second: Io): World {
    Pass(w, Pids(w), first, second)
  }

  // ---- one pass -----------------------------------------------------------

  /** A restart settles a job: it runs now or could not be started. */
  predicate Runs(slot: Slot) {
    Ended(slot.state) || (slot.state.Active? && slot.state.pid in slot.runners)
  }

  lemma StoppedRuns(c: JobConfig, slot: Slot, io: JobIo)
    requires IsGood(io)
    ensures Runs(HandleStopped(c, slot, io)) && Runs(StartJob(slot, io))
  {
  }

  /** The registry between the two halves of a pass. */
  function Mid(w: World, first: Io): World {
    ApplyTo(w, w.jobs.Keys, ActiveStep(w, Pids(w), first))
  }

  lemma MidSlot(w: World, first: Io, n: Name)
    requires n in w.jobs && AllGood(first)
    ensures n in Mid(w, first).jobs && Mid(w, first).jobs[n].config == w.jobs[n].config
    ensures var s := SlotOf(Mid(w, first), n);
            if w.jobs[n].state.Active? && !IsRunningNow(w, w.jobs[n].state) then Runs(s) else s == SlotOf(w, n)
  {
    AppliedSlot(w, w.jobs.Keys, ActiveStep(w, Pids(w), first), n);
    StoppedRuns(w.jobs[n].config, SlotOf(w, n), first(n));
  }

  lemma {:induction false} NeedsStable(deps: map<Name, Job>, later: map<Name, Job>, needs: seq<Name>)
    requires later.Keys == deps.Keys && forall m :: m in deps && Ended(deps[m].state) ==>
             later[m].state == deps[m].state
    ensures !NeedsCheck(deps, needs).NotYet? ==> NeedsCheck(later, needs) == NeedsCheck(deps, needs)
  {
    if needs != [] {
      NeedsStable(deps, later, needs[1..]);
    }
  }

  lemma {:induction false} WaitStable(deps: map<Name, Job>, later: map<Name, Job>, waitFor: seq<Name>)
    requires later.Keys == deps.Keys && forall m :: m in deps && Ended(deps[m].state) ==>
             later[m].state == deps[m].state
    ensures !WaitCheck(deps, waitFor).NotYet? ==> WaitCheck(later, waitFor) == WaitCheck(deps, waitFor)
  {
    if waitFor != [] {
      WaitStable(deps, later, waitFor[1..]);
    }
  }

  /** What the first half of a pass ends does not undo an answer already given. */
  lemma DepsStable(deps: map<Name, Job>, later: map<Name, Job>, c: JobConfig)
    requires later.Keys == deps.Keys && forall m :: m in deps && Ended(deps[m].state) ==>
             later[m].state == deps[m].state
    ensures !DepsOf(deps, c).NotYet? ==> DepsOf(later, c) == DepsOf(deps, c)
  {
    NeedsStable(deps, later, ListOf(c.needs));
    WaitStable(deps, later, ListOf(c.waitFor));
  }

  lemma MidKeepsEnded(w: World, first: Io)
    requires AllGood(first)
    ensures var mid := Mid(w, first).jobs;
            mid.Keys == w.jobs.Keys && forall m :: m in w.jobs && Ended(w.jobs[m].state) ==>
              mid[m].state == w.jobs[m].state
  {
    forall m | m in w.jobs && Ended(w.jobs[m].state)
      ensures Mid(w, first).jobs[m].state == w.jobs[m].state
    {
      MidSlot(w, first, m);
      assert SlotOf(Mid(w, first), m) == SlotOf(w, m);
    }
  }

  /** A pass leaves a settled job alone, and moves any other that it moves at
      all to a settled state. */
  lemma PassSlot(w: World, first: Io, second: Io, n: Name)
    requires n in w.jobs && AllGood(first) && AllGood(second)
    ensures var later := QuickPass(w, first, second);
            && n in later.jobs && later.jobs[n].config == w.jobs[n].config
            && var s := SlotOf(later, n);
               && (IsSettled(w, w.jobs[n].state) ==> s == SlotOf(w, n))
               && (s == SlotOf(w, n) || Runs(s))
               && (!IsSettled(w, w.jobs[n].state) && !IsWaiting(w, n) ==> Runs(s))
  {
    var mid := Mid(w, first);
    MidSlot(w, first, n);
    AppliedSlot(mid, mid.jobs.Keys, InactiveStep(mid, second), n);
    StoppedRuns(mid.jobs[n].config, SlotOf(mid, n), second(n));
    MidKeepsEnded(w, first);
    DepsStable(w.jobs, mid.jobs, w.jobs[n].config);
    assert mid.jobs[n].state == SlotOf(mid, n).state;
  }

  lemma RunsIsSettled(w: World, n: Name)
    requires n in w.jobs && Runs(SlotOf(w, n))
    ensures IsSettled(w, w.jobs[n].state)
  {
    PidsOf(w, n);
  }

  lemma PassSettles(w: World, first: Io, second: Io, n: Name)
    requires n in w.jobs && AllGood(first) && AllGood(second)
    requires IsSettled(w, w.jobs[n].state) || !IsWaiting(w, n)
    ensures var later := QuickPass(w, first, second);
            n in later.jobs && IsSettled(later, later.jobs[n].state)
  {
    PassSlot(w, first, second, n);
    if IsSettled(w, w.jobs[n].state) {
      StillRunning(w, first, second, n);
    } else {
      RunsIsSettled(QuickPass(w, first, second), n);
    }
  }

  /** The jobs that a pass does not leave waiting are settled after it. */
  lemma PassShrinks(w: World, first: Io, second: Io)
    requires AllGood(first) && AllGood(second)
    ensures var later := QuickPass(w, first, second);
            && later.jobs.Keys == w.jobs.Keys
            && Unsettled(later) <= Unsettled(w)
            && (!Quiet(w) ==> Unsettled(later) < Unsettled(w))
  {
    var later := QuickPass(w, first, second);
    forall n | n in w.jobs && (IsSettled(w, w.jobs[n].state) || !IsWaiting(w, n))
      ensures n !in Unsettled(later)
    {
      PassSettles(w, first, second, n);
    }
    if !Quiet(w) {
      var n :| n in w.jobs && !IsSettled(w, w.jobs[n].state) && !IsWaiting(w, n);
      assert n in Unsettled(w);
    }
  }

  lemma StillRunning(w: World, first: Io, second: Io, n: Name)
    requires AllGood(first) && AllGood(second) && n in w.jobs && IsSettled(w, w.jobs[n].state)
    ensures var later := QuickPass(w, first, second);
            n in later.jobs && IsSettled(later, later.jobs[n].state)
  {
    var later := QuickPass(w, first, second);
    PassSlot(w, first, second, n);
    assert later.jobs[n].state == SlotOf(later, n).state == SlotOf(w, n).state;
    if IsRunningNow(w, w.jobs[n].state) {
      RunnersStay(w, first, second);
    }
  }

  lemma ApplyKeepsRunners(w: World, step: Name -> Slot)
    requires forall n :: n in w.jobs ==> RunnersOf(w, n) <= step(n).runners
    ensures w.runners <= ApplyTo(w, w.jobs.Keys, step).runners
  {
    forall r | r in w.runners
      ensures r in ApplyTo(w, w.jobs.Keys, step).runners
    {
      if r.0 in w.jobs {
        assert r.1 in RunnersOf(w, r.0);
      }
    }
  }

  lemma RunnersStay(w: World, first: Io, second: Io)
    ensures w.runners <= QuickPass(w, first, second).runners
  {
    var mid := Mid(w, first);
    ApplyKeepsRunners(w, ActiveStep(w, Pids(w), first));
    ApplyKeepsRunners(mid, InactiveStep(mid, second));
  }

  /** A pass changes nothing exactly when every job is settled or waiting. */
  lemma FixpointIffQuiet(w: World, first: Io, second: Io)
    requires AllGood(first) && AllGood(second)
    ensures QuickPass(w, first, second) == w <==> Quiet(w)
  {
    PassShrinks(w, first, second);
    if Quiet(w) {
      MidOfQuiet(w, first);
      QuietStays(w, second);
    }
  }

  lemma MidOfQuiet(w: World, first: Io)
    requires Quiet(w)
    ensures Mid(w, first) == w
  {
    var step := ActiveStep(w, Pids(w), first);
    forall n
      ensures RunnersOf(Mid(w, first), n) == RunnersOf(w, n)
    {
      RunnersAfter(w, w.jobs.Keys, step, n);
    }
    assert forall n :: n in w.jobs ==> step(n) == SlotOf(w, n);
    SameWorld(Mid(w, first), w);
  }

  lemma QuietStays(w: World, second: Io)
    requires Quiet(w)
    ensures ApplyTo(w, w.jobs.Keys, InactiveStep(w, second)) == w
  {
    var step := InactiveStep(w, second);
    var later := ApplyTo(w, w.jobs.Keys, step);
    forall n
      ensures RunnersOf(later, n) == RunnersOf(w, n)
    {
      RunnersAfter(w, w.jobs.Keys, step, n);
    }
    assert forall n :: n in w.jobs ==> step(n) == SlotOf(w, n);
    SameWorld(later, w);
  }

  // ---- repeated passes ----------------------------------------------------

  /** Passes one after the other, nothing else happening in between. */
  ghost predicate ArePasses(worlds: seq<World>, ios: seq<(Io, Io)>) {
    && |worlds| == |ios| + 1
    && forall i :: 0 <= i < |ios| ==> IsPass(worlds[i], ios[i], worlds[i + 1])
  }

  ghost predicate IsPass(w: World, io: (Io, Io), later: World) {
    AllGood(io.0) && AllGood(io.1) && later == QuickPass(w, io.0, io.1)
  }

  lemma {:induction false} FewerUnsettled(worlds: seq<World>, ios: seq<(Io, Io)>, i: nat)
    requires ArePasses(worlds, ios) && i <= |ios|
    ensures worlds[i].jobs.Keys == worlds[0].jobs.Keys
    ensures Quiet(worlds[i]) || |Unsettled(worlds[i])| + i <= |worlds[0].jobs|
  {
    if i == 0 {
      SubsetCount(Unsettled(worlds[0]), worlds[0].jobs.Keys);
    } else {
      FewerUnsettled(worlds, ios, i - 1);
      var w := worlds[i - 1];
      assert IsPass(w, ios[i - 1], worlds[i]);
      PassShrinks(w, ios[i - 1].0, ios[i - 1].1);
      FixpointIffQuiet(w, ios[i - 1].0, ios[i - 1].1);
      if !Quiet(w) {
        StrictlySmaller(Unsettled(worlds[i]), Unsettled(w));
      }
    }
  }

  lemma StrictlySmaller(a: set<Name>, b: set<Name>)
    requires a < b
    ensures |a| < |b|
  {
    var x :| x in b && x !in a;
    SubsetCount(a, b - {x});
  }

  lemma QuietAfter(worlds: seq<World>, ios: seq<(Io, Io)>, i: nat)
    requires ArePasses(worlds, ios) && |worlds[0].jobs| <= i <= |ios|
    ensures Quiet(worlds[i])
  {
    FewerUnsettled(worlds, ios, i);
    if |Unsettled(worlds[i])| == 0 {
      NoneUnsettled(worlds[i]);
    }
  }

  lemma NoneUnsettled(w: World)
    requires Unsettled(w) == {}
    ensures Quiet(w)
  {
    forall n | n in w.jobs
      ensures IsSettled(w, w.jobs[n].state)
    {
      assert n !in Unsettled(w);
    }
  }

  lemma QuietPassesDoNothing(worlds: seq<World>, ios: seq<(Io, Io)>, i: nat)
    requires ArePasses(worlds, ios) && i < |ios| && Quiet(worlds[i])
    ensures worlds[i + 1] == worlds[i]
  {
    assert IsPass(worlds[i], ios[i], worlds[i + 1]);
    FixpointIffQuiet(worlds[i], ios[i].0, ios[i].1);
  }

  lemma {:induction false} SameFromQuiet(worlds: seq<World>, ios: seq<(Io, Io)>, n: nat, i: nat)
    requires ArePasses(worlds, ios) && n <= i <= |ios| && Quiet(worlds[n])
    ensures worlds[i] == worlds[n]
    decreases i
  {
    if i > n {
      SameFromQuiet(worlds, ios, n, i - 1);
      QuietPassesDoNothing(worlds, ios, i - 1);
    }
  }

  /** After as many passes as there are jobs nothing changes any more. */
  lemma PassesReachFixpoint(worlds: seq<World>, ios: seq<(Io, Io)>, i: nat)
    requires ArePasses(worlds, ios) && |worlds[0].jobs| <= i <= |ios|
    ensures Quiet(worlds[i]) && worlds[i] == worlds[|worlds[0].jobs|]
  {
    QuietAfter(worlds, ios, |worlds[0].jobs|);
    SameFromQuiet(worlds, ios, |worlds[0].jobs|, i);
  }

  /** `rank` orders the jobs so that each comes after those it depends on. */
  ghost predicate IsAcyclic(jobs: map<Name, Job>, rank: Name -> nat) {
    forall n, m :: n in jobs && m in WaitingFor(jobs[n].config) && m in jobs ==> rank(m) < rank(n)
  }

  /** At a fixpoint every job that waits does so, in the end, for one that runs. */
  lemma {:induction false} WaitsForARunningJob(w: World, rank: Name -> nat, n: Name) returns (m: Name)
    requires Quiet(w) && IsAcyclic(w.jobs, rank) && n in w.jobs && !Ended(w.jobs[n].state)
    ensures m in w.jobs && IsRunningNow(w, w.jobs[m].state)
    decreases rank(n)
  {
    m := n;
    if IsWaiting(w, n) {
      NotYetBecause(w.jobs, w.jobs[n].config);
      var d :| d in WaitingFor(w.jobs[n].config) && d in w.jobs && !Ended(w.jobs[d].state);
      m := WaitsForARunningJob(w, rank, d);
    }
  }

  /** No deadlock: after enough passes over an acyclic graph, if no job runs
      then every job is over. */
  lemma NoDeadlock(worlds: seq<World>, ios: seq<(Io, Io)>, i: nat, rank: Name -> nat)
    requires ArePasses(worlds, ios) && |worlds[0].jobs| <= i <= |ios|
    requires IsAcyclic(worlds[i].jobs, rank)
    requires forall n :: n in worlds[i].jobs ==> worlds[i].jobs[n].state.Inactive?
    ensures forall n :: n in worlds[i].jobs ==> Ended(worlds[i].jobs[n].state)
  {
    PassesReachFixpoint(worlds, ios, i);
    forall n | n in worlds[i].jobs
      ensures Ended(worlds[i].jobs[n].state)
    {
      if !Ended(worlds[i].jobs[n].state) {
        var m := WaitsForARunningJob(worlds[i], rank, n);
      }
    }
  }

  // ---- cycles of needs ----------------------------------------------------

  predicate Needs(c: JobConfig, m: Name) {
    m in ListOf(c.needs)
  }

  predicate NeverLaunched(s: JobState) {
    s.Inactive? && !s.status.Running? && !Succeeded(s)
  }

  /** Neither in memory nor on disk was the job ever launched, and nothing runs. */
  predicate IsBlocked(slot: Slot) {
    NeverLaunched(slot.state) && HasNoStart(slot.file, slot.runners)
  }

  predicate HasNoStart(file: Option<JobStatus>, runners: set<Pid>) {
    (file.Some? ==> NeverLaunched(Inactive(file.value))) && runners == {}
  }

  /** Every job of `cycle` needs another one of it, `next` says which: by its
      config file and in memory, where it is defined. No job of it was launched. */
  ghost predicate NoneLaunched(w: World, cycle: set<Name>, next: Name -> Name) {
    forall n :: n in cycle ==>
      && next(n) in cycle
      && (n in w.configs ==> Needs(w.configs[n], next(n)))
      && (n in w.jobs ==> Needs(w.jobs[n].config, next(n)) && NeverLaunched(w.jobs[n].state))
      && HasNoStart(FileOf(w, n), RunnersOf(w, n))
  }

  /** Only a request that gives a job of the cycle other needs, or skips it, can
      break the cycle. */
  predicate LeavesAlone(a: Action, cycle: set<Name>, next: Name -> Name) {
    match a
    case CreateJob(n, c, _, _) => n in cycle ==> Needs(c, next(n))
    case SkipRequest(n, _) => n !in cycle
    case _ => true
  }

  lemma NeedBlocks(deps: map<Name, Job>, c: JobConfig, m: Name)
    requires Needs(c, m) && (m in deps ==> !Succeeded(deps[m].state))
    ensures !DepsOf(deps, c).AllDone?
  {
    AllDoneIff(deps, c);
  }

  lemma CheckKeepsNeverLaunched(c: JobConfig, deps: map<Name, Job>, slot: Slot, io: JobIo)
    requires NeverLaunched(slot.state) && !DepsOf(deps, c).AllDone?
    ensures NeverLaunched(CheckInactive(c, deps, slot, io).state)
    ensures IsBlocked(slot) ==> IsBlocked(CheckInactive(c, deps, slot, io))
  {
  }

  lemma BlockedSlot(w: World, cycle: set<Name>, next: Name -> Name, n: Name)
    requires NoneLaunched(w, cycle, next) && n in cycle && n in w.jobs
    ensures IsBlocked(SlotOf(w, n))
  {
  }

  lemma ApplyKeepsCycle(w: World, cycle: set<Name>, next: Name -> Name, names: set<Name>, step: Name -> Slot)
    requires NoneLaunched(w, cycle, next) && names <= w.jobs.Keys
    requires forall n :: n in names && n in cycle ==> IsBlocked(step(n))
    ensures NoneLaunched(ApplyTo(w, names, step), cycle, next)
  {
    var later := ApplyTo(w, names, step);
    forall n | n in cycle
      ensures HasNoStart(FileOf(later, n), RunnersOf(later, n))
    {
      RunnersAfter(w, names, step, n);
      assert n in names ==> IsBlocked(step(n));
    }
  }

  lemma PassKeepsCycle(w: World, cycle: set<Name>, next: Name -> Name, ps: set<Pid>, first: Io, second: Io)
    requires NoneLaunched(w, cycle, next)
    ensures NoneLaunched(Pass(w, ps, first, second), cycle, next)
  {
    forall n | n in cycle && n in w.jobs
      ensures IsBlocked(ActiveStep(w, ps, first)(n))
    {
      BlockedSlot(w, cycle, next, n);
    }
    ApplyKeepsCycle(w, cycle, next, w.jobs.Keys, ActiveStep(w, ps, first));
    var mid := ApplyTo(w, w.jobs.Keys, ActiveStep(w, ps, first));
    forall n | n in cycle && n in mid.jobs
      ensures IsBlocked(InactiveStep(mid, second)(n))
    {
      BlockedSlot(mid, cycle, next, n);
      NeedBlocks(mid.jobs, mid.jobs[n].config, next(n));
      CheckKeepsNeverLaunched(mid.jobs[n].config, mid.jobs, SlotOf(mid, n), second(n));
    }
    ApplyKeepsCycle(mid, cycle, next, mid.jobs.Keys, InactiveStep(mid, second));
  }

  /** Ending a blocked job, or leaving it to the next jobs manager, keeps it blocked. */
  lemma ClientKeepsBlocked(slot: Slot, status: JobStatus, force: bool, io: JobIo)
    requires IsBlocked(slot)
    ensures NeverLaunched(Inactive(status)) ==>
              IsBlocked(EndJob(slot, status, io).0) && IsBlocked(Settle(slot, status, io))
    ensures IsBlocked(ShutdownJob(slot, force, io).0)
  {
  }

  lemma ManyKeepCycle(w: World, cycle: set<Name>, next: Name -> Name, names: set<Name>, force: bool, ios: Io)
    requires NoneLaunched(w, cycle, next) && names <= w.jobs.Keys
    ensures NoneLaunched(ApplyTo(w, names, StopStep(w, ios)), cycle, next)
    ensures NoneLaunched(ApplyTo(w, names, ShutdownStep(w, force, ios)), cycle, next)
  {
    forall n | n in names && n in cycle
      ensures IsBlocked(StopStep(w, ios)(n)) && IsBlocked(ShutdownStep(w, force, ios)(n))
    {
      BlockedSlot(w, cycle, next, n);
      ClientKeepsBlocked(SlotOf(w, n), Stopped, force, ios(n));
    }
    ApplyKeepsCycle(w, cycle, next, names, StopStep(w, ios));
    ApplyKeepsCycle(w, cycle, next, names, ShutdownStep(w, force, ios));
  }

  lemma SameCycle(w: World, later: World, cycle: set<Name>, next: Name -> Name)
    requires NoneLaunched(w, cycle, next)
    requires later.jobs == w.jobs && later.configs == w.configs
    requires forall n :: n in cycle ==> FileOf(later, n) == FileOf(w, n) && RunnersOf(later, n) <= RunnersOf(w, n)
    ensures NoneLaunched(later, cycle, next)
  {
  }

  lemma ShutdownKeepsCycle(w: World, cycle: set<Name>, next: Name -> Name, names: set<Name>, force: bool, ios: Io)
    requires NoneLaunched(w, cycle, next) && names <= w.jobs.Keys
    ensures var v := w.(phase := Shutdown);
            NoneLaunched(ApplyTo(v, names, ShutdownStep(v, force, ios)), cycle, next)
  {
    var v := w.(phase := Shutdown);
    assert forall n :: FileOf(v, n) == FileOf(w, n) && RunnersOf(v, n) == RunnersOf(w, n);
    SameCycle(w, v, cycle, next);
    ManyKeepCycle(v, cycle, next, names, force, ios);
  }

  lemma StartKeepsCycle(w: World, cycle: set<Name>, next: Name -> Name, n: Name, io: JobIo)
    requires NoneLaunched(w, cycle, next)
    ensures NoneLaunched(Start(w, n, io).0, cycle, next)
  {
    if n in w.jobs && w.jobs[n].state.Inactive? {
      var status := Pending(WaitingFor(w.jobs[n].config));
      if n in cycle {
        BlockedSlot(w, cycle, next, n);
        ClientKeepsBlocked(SlotOf(w, n), status, false, io);
      }
      ApplyKeepsCycle(w, cycle, next, {n}, _ => Settle(SlotOf(w, n), status, io));
    }
  }

  lemma EndKeepsCycle(w: World, cycle: set<Name>, next: Name -> Name, n: Name, status: JobStatus, io: JobIo)
    requires NoneLaunched(w, cycle, next) && (status.Stopped? || n !in cycle)
    ensures NoneLaunched(End(w, n, status, io).0, cycle, next)
  {
    if n in w.jobs {
      if n in cycle {
        BlockedSlot(w, cycle, next, n);
        ClientKeepsBlocked(SlotOf(w, n), status, false, io);
      }
      ApplyKeepsCycle(w, cycle, next, {n}, _ => EndJob(SlotOf(w, n), status, io).0);
    }
  }

  lemma TerminatedKeepsCycle(w: World, cycle: set<Name>, next: Name -> Name, n: Name, io: JobIo)
    requires NoneLaunched(w, cycle, next)
    ensures NoneLaunched(Terminated(w, n, io).0, cycle, next)
  {
    if n in w.jobs {
      if n in cycle {
        BlockedSlot(w, cycle, next, n);
      }
      ApplyKeepsCycle(w, cycle, next, {n}, _ => Terminate(SlotOf(w, n), io).0);
    }
  }

  lemma FileKeepsCycle(w: World, cycle: set<Name>, next: Name -> Name, n: Name, status: JobStatus)
    requires NoneLaunched(w, cycle, next) && (n in cycle ==> NeverLaunched(Inactive(status)))
    ensures NoneLaunched(w.(files := w.files[n := status]), cycle, next)
  {
    var later := w.(files := w.files[n := status]);
    assert forall m :: RunnersOf(later, m) == RunnersOf(w, m);
  }

  lemma RegisterKeepsCycle(w: World, cycle: set<Name>, next: Name -> Name, n: Name, c: JobConfig)
    requires NoneLaunched(w, cycle, next) && (n in cycle ==> Needs(c, next(n)))
    ensures NoneLaunched(Register(w, n, c), cycle, next)
  {
    var later := Register(w, n, c);
    assert forall m :: RunnersOf(later, m) == RunnersOf(w, m);
  }

  lemma CreateKeepsCycle(w: World, cycle: set<Name>, next: Name -> Name, n: Name, c: JobConfig, io: JobIo, saved: bool)
    requires NoneLaunched(w, cycle, next) && (n in cycle ==> Needs(c, next(n)))
    ensures NoneLaunched(Create(w, n, c, io, saved).0, cycle, next)
  {
    var v := Terminated(w, n, io).0;
    TerminatedKeepsCycle(w, cycle, next, n, io);
    FileKeepsCycle(v, cycle, next, n, Stopped);
    RegisterKeepsCycle(v, cycle, next, n, c);
  }

  /** A jobs manager that starts finds no runner and no status to go on with. */
  lemma LoadKeepsCycle(w: World, cycle: set<Name>, next: Name -> Name, found: Name -> Option<Pid>, ios: Io)
    requires NoneLaunched(w, cycle, next) && IsFound(w, found)
    ensures NoneLaunched(Load(w, found, ios).(phase := Ready, loaded := true), cycle, next)
  {
    var later := Load(w, found, ios).(phase := Ready, loaded := true);
    assert forall m :: RunnersOf(later, m) == RunnersOf(w, m) && FileOf(later, m) == FileOf(w, m);
    forall n | n in cycle && n in later.jobs
      ensures Needs(later.jobs[n].config, next(n)) && NeverLaunched(later.jobs[n].state)
    {
      assert HasNoStart(FileOf(w, n), RunnersOf(w, n));
      assert found(n).None?;
    }
  }

  lemma RequestKeepsCycle(w: World, cycle: set<Name>, next: Name -> Name, a: Action)
    requires NoneLaunched(w, cycle, next) && Allowed(w, a) && LeavesAlone(a, cycle, next)
    requires a.CreateJob? || a.StartRequest? || a.StopRequest? || a.SkipRequest? || a.StopAll? || a.ShutdownManager?
    ensures NoneLaunched(Next(w, a), cycle, next)
  {
    match a
    case CreateJob(n, c, io, saved) => CreateKeepsCycle(w, cycle, next, n, c, io, saved);
    case StartRequest(n, io) => StartKeepsCycle(w, cycle, next, n, io);
    case StopRequest(n, io) => EndKeepsCycle(w, cycle, next, n, Stopped, io);
    case SkipRequest(n, io) => EndKeepsCycle(w, cycle, next, n, SKIPPED, io);
    case StopAll(names, ios) => ManyKeepCycle(w, cycle, next, names, false, ios);
    case ShutdownManager(names, force, ios) => ShutdownKeepsCycle(w, cycle, next, names, force, ios);
  }

  lemma StepKeepsCycle(w: World, cycle: set<Name>, next: Name -> Name, a: Action)
    requires NoneLaunched(w, cycle, next) && Allowed(w, a) && LeavesAlone(a, cycle, next)
    ensures NoneLaunched(Next(w, a), cycle, next)
  {
    match a
    case StartupManager(found, ios) => LoadKeepsCycle(w, cycle, next, found, ios);
    case RestartManager =>
      assert forall m :: RunnersOf(Next(w, a), m) == RunnersOf(w, m);
    case ManagerPass(ps, first, second) => PassKeepsCycle(w, cycle, next, ps, first, second);
    case RunnerWrites(n, status) =>
      assert n in cycle ==> HasNoStart(FileOf(w, n), RunnersOf(w, n));
      FileKeepsCycle(w, cycle, next, n, status);
    case RunnerExits(n, pid) =>
      assert forall m :: RunnersOf(Next(w, a), m) <= RunnersOf(w, m);
      SameCycle(w, Next(w, a), cycle, next);
    case _ => RequestKeepsCycle(w, cycle, next, a);
  }

  /** Jobs that need each other are never launched, in no run, through any
      requests, passes, exits and restarts, as long as none of them is skipped or
      given other needs. */
  lemma {:induction false} CycleIsNeverLaunched(worlds: seq<World>, acts: seq<Action>, cycle: set<Name>,
                                                next: Name -> Name, k: nat, i: nat)
    requires IsRun(worlds, acts) && k <= i <= |acts|
    requires NoneLaunched(worlds[k], cycle, next)
    requires forall j :: k <= j < i ==> LeavesAlone(acts[j], cycle, next)
    ensures NoneLaunched(worlds[i], cycle, next)
    decreases i
  {
    if i > k {
      CycleIsNeverLaunched(worlds, acts, cycle, next, k, i - 1);
      assert IsNext(worlds[i - 1], acts[i - 1], worlds[i]);
      StepKeepsCycle(worlds[i - 1], cycle, next, acts[i - 1]);
    }
  }
}
