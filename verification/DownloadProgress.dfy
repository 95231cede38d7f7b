/** A download does not hang: while a run is going on some step is possible, and
    however its steps are scheduled, the run comes to an end. */
module DownloadProgress {
  import opened Layout
  import opened ChunkDownload
  import opened ChunkQueue
  import opened FileWriter
  import opened DownloadRun
  import opened DownloadSafety
  import opened DownloadProof

  // ---- no deadlock --------------------------------------------------------

  lemma {:induction false} SomeRequest(remaining: set<nat>, count: nat) returns (request: seq<nat>)
    ensures IsRequest(request, remaining, count)
  {
    request := [];
    var left := remaining;
    while |request| < count && left != {}
      invariant left <= remaining && |request| + |left| == |remaining| && |request| <= count
      invariant NoRepeats(request) && Elements(request) == remaining - left
      decreases left
    {
      var i :| i in left;
      ElementsAppend(request, i);
      left := left - {i};
      request := request + [i];
    }
  }

  lemma FailingScript(a: Archive, i: nat)
    requires i < |a.chunks|
    ensures Legit(a, i, Script([], [], false))
  {
    assert Zip(CellsOf(a, i), []) == [];
    assert Writes([]) == [];
  }

  lemma LaunchIsPossible(c: Config, r: Run) returns (act: Action)
    requires QueueInv(c, r) && r.phase.Launching? && r.childUp
    ensures act.LaunchMore? && MayHappenInRun(c, r, act) && LaunchesLegit(c.archive, act)
  {
    var request := SomeRequest(r.queue.remaining, Runners(c));
    if Asks(r) {
      act := LaunchMore(request, None, map[]);
    } else {
      var q := Launched(c, r, None);
      LaunchedConserves(c, r, None);
      assert forall i :: i in q.launched ==> i in Indexes(Total(c)) by {
        assert forall i :: i in q.launched ==> i in Elements(q.launched);
      }
      var scripts := map i | i in Elements(q.launched) :: Script([], [], false);
      forall i | i in scripts
        ensures Legit(c.archive, i, scripts[i])
      {
        FailingScript(c.archive, i);
      }
      act := LaunchMore(request, None, scripts);
    }
  }

  lemma WorkerCanGoOn(c: Config, r: Run) returns (act: Action)
    requires r.phase.Waiting? && c.maxRunners > 0
    requires forall i :: i in r.workers ==> r.workers[i].sent <= |r.workers[i].script.msgs|
    ensures MayHappenInRun(c, r, act)
    ensures act.Join? || act.Send? || act == HandleNext(NoFault) || act.NoMoreWorkers?
  {
    if Live(r) == {} {
      return NoMoreWorkers;
    }
    var i :| i in Live(r);
    if r.workers[i].sent == |r.workers[i].script.msgs| || !r.writer.Up? {
      act := Join(i);
    } else if |r.channel| < c.maxRunners {
      act := Send(i);
    } else {
      act := HandleNext(NoFault);
    }
  }

  /** A run that goes on can go on without a crash or a stop from outside. */
  lemma NeverStuck(c: Config, s: Sys) returns (act: Action)
    requires Inv(c, s) && s.run.Some?
    ensures Enabled(c, s, act) && !act.Crash? && !act.StopParent?
  {
    var r := s.run.value;
    match r.phase
    case Launching =>
      if r.childUp {
        act := LaunchIsPossible(c, r);
      } else {
        act := SkipLaunch;
      }
    case Waiting =>
      forall i | i in r.workers
        ensures r.workers[i].sent <= |r.workers[i].script.msgs|
      {
        assert InBounds(c.archive, i, r.workers[i]);
      }
      act := WorkerCanGoOn(c, r);
    case Draining =>
      act := if !r.writer.Up? then Finish else if r.channel == [] then WriterDrained else HandleNext(NoFault);
  }

  // ---- every run ends -----------------------------------------------------

  /** Messages of one worker that are not sent yet. */
  function Unsent(workers: map<nat, Worker>, i: nat): nat {
    if i in workers && workers[i].sent <= |workers[i].script.msgs|
    then |workers[i].script.msgs| - workers[i].sent else 0
  }

  function AllUnsent(workers: map<nat, Worker>, launched: seq<nat>): nat {
    if launched == [] then 0 else Unsent(workers, launched[0]) + AllUnsent(workers, launched[1..])
  }

  lemma {:induction false} UnsentMonotone(workers: map<nat, Worker>, later: map<nat, Worker>, launched: seq<nat>)
    requires forall i :: i in launched ==> Unsent(later, i) <= Unsent(workers, i)
    ensures AllUnsent(later, launched) <= AllUnsent(workers, launched)
    ensures (exists i :: i in launched && Unsent(later, i) < Unsent(workers, i)) ==>
              AllUnsent(later, launched) < AllUnsent(workers, launched)
  {
    if launched != [] {
      UnsentMonotone(workers, later, launched[1..]);
      assert forall i :: i in launched <==> i == launched[0] || i in launched[1..];
    }
  }

  function PhaseRank(p: Phase): nat {
    match p case Launching => 2 case Waiting => 1 case Draining => 0
  }

  /** What a step other than the end of the run makes smaller: the first of
      these that changes. */
  datatype Rank = Rank(remaining: nat, live: nat, unsent: nat, inChannel: nat, phase: nat, flags: nat)

  function RankOf(r: Run): Rank {
    Rank(|r.queue.remaining|, |Live(r)|, AllUnsent(r.workers, r.queue.launched), |r.channel|,
         PhaseRank(r.phase), (if r.writer.Up? then 1 else 0) + (if r.parentUp then 1 else 0))
  }

  predicate Below(a: Rank, b: Rank) {
    if a.remaining != b.remaining then a.remaining < b.remaining
    else if a.live != b.live then a.live < b.live
    else if a.unsent != b.unsent then a.unsent < b.unsent
    else if a.inChannel != b.inChannel then a.inChannel < b.inChannel
    else if a.phase != b.phase then a.phase < b.phase
    else a.flags < b.flags
  }

  lemma LaunchUses(q: Queue, later: Queue, total: nat, base: set<nat>)
    requires Conserved(q, total, base) && Conserved(later, total, base) && q.launched <= later.launched
    ensures (later.remaining == q.remaining && later.launched == q.launched) || |later.remaining| < |q.remaining|
  {
    assert Elements(q.launched) <= Elements(later.launched);
    assert later.remaining == Indexes(total) - base - Elements(later.launched);
    assert q.remaining == Indexes(total) - base - Elements(q.launched);
    if |q.launched| < |later.launched| {
      LongerHasMore(q.launched, later.launched);
      assert later.remaining < q.remaining;
      SubsetCount(later.remaining, q.remaining - (Elements(later.launched) - Elements(q.launched)));
    }
  }

  lemma NothingLaunched(c: Config, r: Run, reply: Option<seq<nat>>, scripts: map<nat, Script>)
    requires r.workers.Keys == Elements(r.queue.launched) && !(Asks(r) && reply.None?)
    requires Launched(c, r, reply).launched == r.queue.launched
    ensures ApplyLaunch(c, r, reply, scripts).workers == r.workers
  {
    assert forall i :: i in r.queue.launched ==> i in Elements(r.queue.launched);
  }

  lemma SameWorkersLower(r: Run, later: Run)
    requires later.workers == r.workers && later.queue.launched == r.queue.launched && later.channel == r.channel
    requires later.queue.remaining == r.queue.remaining && PhaseRank(later.phase) < PhaseRank(r.phase)
    ensures Below(RankOf(later), RankOf(r))
  {
    assert Live(later) == Live(r);
  }

  lemma LaunchKeepsOrUses(c: Config, r: Run, reply: Option<seq<nat>>)
    requires QueueInv(c, r)
    requires Asks(r) ==> reply.Some? && IsUsableReply(reply.value, r.queue.remaining)
    ensures var q := Launched(c, r, reply);
            if q.launched == r.queue.launched then q.remaining == r.queue.remaining
            else |q.remaining| < |r.queue.remaining|
  {
    LaunchedConserves(c, r, reply);
    LaunchUses(r.queue, Launched(c, r, reply), Total(c), r.base);
  }

  lemma LessRemains(r: Run, later: Run)
    requires |later.queue.remaining| < |r.queue.remaining|
    ensures Below(RankOf(later), RankOf(r))
  {
  }

  lemma ApplyLaunchParts(c: Config, r: Run, reply: Option<seq<nat>>, scripts: map<nat, Script>)
    ensures var later := ApplyLaunch(c, r, reply, scripts);
            && later.channel == r.channel && later.phase.Waiting?
            && if Asks(r) && reply.None? then later.queue == r.queue && later.workers == r.workers
               else later.queue == Launched(c, r, reply)
  {
  }

  lemma LaunchLowers(c: Config, r: Run, reply: Option<seq<nat>>, scripts: map<nat, Script>)
    requires QueueInv(c, r) && r.phase.Launching?
    requires Asks(r) && reply.Some? ==> IsUsableReply(reply.value, r.queue.remaining)
    ensures Below(RankOf(ApplyLaunch(c, r, reply, scripts)), RankOf(r))
  {
    ApplyLaunchParts(c, r, reply, scripts);
    if Asks(r) && reply.None? {
      SameWorkersLower(r, ApplyLaunch(c, r, reply, scripts));
    } else {
      LaunchKeepsOrUses(c, r, reply);
      LaunchedLowers(c, r, reply, scripts);
    }
  }

  lemma LaunchedLowers(c: Config, r: Run, reply: Option<seq<nat>>, scripts: map<nat, Script>)
    requires r.workers.Keys == Elements(r.queue.launched) && r.phase.Launching? && !(Asks(r) && reply.None?)
    requires var q := Launched(c, r, reply);
             if q.launched == r.queue.launched then q.remaining == r.queue.remaining
             else |q.remaining| < |r.queue.remaining|
    ensures Below(RankOf(ApplyLaunch(c, r, reply, scripts)), RankOf(r))
  {
    ApplyLaunchParts(c, r, reply, scripts);
    if Launched(c, r, reply).launched == r.queue.launched {
      NothingLaunched(c, r, reply, scripts);
      SameWorkersLower(r, ApplyLaunch(c, r, reply, scripts));
    } else {
      LessRemains(r, ApplyLaunch(c, r, reply, scripts));
    }
  }

  lemma SendLowers(r: Run, i: nat)
    requires r.workers.Keys == Elements(r.queue.launched) && i in r.workers && r.workers[i].live
    requires r.workers[i].sent < |r.workers[i].script.msgs|
    ensures Below(RankOf(ApplySend(r, i)), RankOf(r))
  {
    var later := ApplySend(r, i);
    assert Live(later) == Live(r);
    assert i in Elements(r.queue.launched);
    assert Unsent(later.workers, i) < Unsent(r.workers, i);
    UnsentMonotone(r.workers, later.workers, r.queue.launched);
  }

  lemma SameUnsent(workers: map<nat, Worker>, later: map<nat, Worker>, launched: seq<nat>)
    requires forall i :: i in launched ==> Unsent(later, i) == Unsent(workers, i)
    ensures AllUnsent(later, launched) == AllUnsent(workers, launched)
  {
    UnsentMonotone(workers, later, launched);
    UnsentMonotone(later, workers, launched);
  }

  lemma HandleLowers(s: Sys, r: Run, fault: Fault)
    requires r.channel != []
    ensures ApplyHandle(s, r, fault).run.Some?
    ensures Below(RankOf(ApplyHandle(s, r, fault).run.value), RankOf(r))
  {
    var later := ApplyHandle(s, r, fault).run.value;
    assert Live(later) == Live(r);
    SameUnsent(r.workers, later.workers, r.queue.launched);
  }

  lemma JoinLowers(r: Run, i: nat)
    requires i in r.workers && r.workers[i].live
    ensures Below(RankOf(ApplyJoin(r, i)), RankOf(r))
  {
    var later := ApplyJoin(r, i);
    assert Live(later) == Live(r) - {i};
    assert i in Live(r);
  }

  lemma ControlLowers(c: Config, s: Sys, r: Run, act: Action)
    requires MayHappenInRun(c, r, act)
    requires act.SkipLaunch? || act.WriterStops? || act.WriterDrained? || act.NoMoreWorkers? || act.StopParent?
    ensures ApplyInRun(c, s, r, act).run.Some?
    ensures Below(RankOf(ApplyInRun(c, s, r, act).run.value), RankOf(r))
  {
    assert Live(ApplyInRun(c, s, r, act).run.value) == Live(r);
  }

  lemma StepLowers(c: Config, s: Sys, act: Action)
    requires Inv(c, s) && s.run.Some? && Enabled(c, s, act)
    ensures var later := Apply(c, s, act);
            later.run.Some? ==> Below(RankOf(later.run.value), RankOf(s.run.value))
  {
    var r := s.run.value;
    match act
    case LaunchMore(_, reply, scripts) => LaunchLowers(c, r, reply, scripts);
    case Send(i) => SendLowers(r, i);
    case HandleNext(fault) => HandleLowers(s, r, fault);
    case Join(i) => JoinLowers(r, i);
    case Finish =>
    case Crash =>
    case _ => ControlLowers(c, s, r, act);
  }

  /** A schedule goes on forever or until the run has ended. */
  ghost predicate IsSchedule(c: Config, states: nat -> Sys, acts: nat -> Action) {
    forall k: nat :: states(k).run.Some? ==>
      Enabled(c, states(k), acts(k)) && states(k + 1) == Apply(c, states(k), acts(k))
  }

  /** Whatever the schedule, the run ends. */
  lemma {:induction false} EveryRunEnds(c: Config, states: nat -> Sys, acts: nat -> Action, k: nat) returns (n: nat)
    requires Sound(c.archive) && IsSchedule(c, states, acts)
    requires Inv(c, states(k))
    ensures n >= k && states(n).run.None?
    decreases states(k).run.Some?,
              if states(k).run.Some? then RankOf(states(k).run.value).remaining else 0,
              if states(k).run.Some? then RankOf(states(k).run.value).live else 0,
              if states(k).run.Some? then RankOf(states(k).run.value).unsent else 0,
              if states(k).run.Some? then RankOf(states(k).run.value).inChannel else 0,
              if states(k).run.Some? then RankOf(states(k).run.value).phase else 0,
              if states(k).run.Some? then RankOf(states(k).run.value).flags else 0
  {
    if states(k).run.None? {
      return k;
    }
    StepKeeps(c, states(k), acts(k));
    StepLowers(c, states(k), acts(k));
    n := EveryRunEnds(c, states, acts, k + 1);
  }
}
