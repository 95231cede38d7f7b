/** Restarting a job with exponential backoff (`Backoff`, `JobBackoff`,
    `ArchiveJobRunner::try_run_job`). */
module RestartBackoff {
  import opened Layout

  datatype RestartConfig = RestartConfig(baseMs: nat, timeoutMs: nat, maxRetries: Option<nat>)
  datatype Policy = NeverRestart | AlwaysRestart(config: RestartConfig) | RestartOnFailure(config: RestartConfig)

  datatype Attempt = Attempt(exitCode: Option<int>, duration: nat)
  datatype Limit = WithinLimit | Exceeded

  function Pow2(k: nat): nat {
    if k == 0 then 1 else 2 * Pow2(k - 1)
  }

  /** `exp_backoff_timeout` */
  function Delay(baseMs: nat, retryCount: nat): nat {
    baseMs * Pow2(retryCount)
  }

  /** How many attempts at the end did not outlast the reset window. */
  function ShortTail(attempts: seq<Attempt>, timeout: nat): (k: nat)
    ensures k <= |attempts|
  {
    if attempts == [] || attempts[|attempts| - 1].duration > timeout then 0
    else 1 + ShortTail(attempts[..|attempts| - 1], timeout)
  }

  class Backoff {
    var counter: nat
    var timestamp: nat
    const baseMs: nat
    const resetTimeout: nat

    constructor (now: nat, baseMs: nat, resetTimeout: nat)
      ensures counter == 0 && timestamp == now
      ensures this.baseMs == baseMs && this.resetTimeout == resetTimeout
    {
      counter, timestamp := 0, now;
      this.baseMs, this.resetTimeout := baseMs, resetTimeout;
    }

    method Start(now: nat)
      modifies this`timestamp
      ensures timestamp == now
    {
      timestamp := now;
    }

    /** An attempt that outlasted the window resets the counter. */
    method CheckTimeout(now: nat) returns (expired: bool)
      requires timestamp <= now
      modifies this`counter
      ensures expired <==> now - timestamp > resetTimeout
      ensures counter == if expired then 0 else old(counter)
    {
      expired := now - timestamp > resetTimeout;
      if expired {
        counter := 0;
      }
    }

    method BackOff() returns (slept: nat)
      modifies this`counter
      ensures slept == Delay(baseMs, old(counter)) && counter == old(counter) + 1
    {
      slept := Delay(baseMs, counter);
      counter := counter + 1;
    }

    method Wait(now: nat) returns (slept: Option<nat>)
      requires timestamp <= now
      modifies this`counter
      ensures var expired := now - timestamp > resetTimeout;
              && slept == (if expired then None else Some(Delay(baseMs, old(counter))))
              && counter == if expired then 0 else old(counter) + 1
    {
      slept := None;
      var expired := CheckTimeout(now);
      if !expired {
        var s := BackOff();
        slept := Some(s);
      }
    }

    /** Exceeded only without a reset, and then without sleeping. */
    method WaitWithLimit(now: nat, maxRetries: nat) returns (limit: Limit, slept: Option<nat>)
      requires timestamp <= now
      modifies this`counter
      ensures var expired := now - timestamp > resetTimeout;
              && (limit.Exceeded? <==> !expired && old(counter) >= maxRetries)
              && slept == (if expired || limit.Exceeded? then None else Some(Delay(baseMs, old(counter))))
              && counter == (if expired then 0 else if limit.Exceeded? then old(counter) else old(counter) + 1)
    {
      slept := None;
      var expired := CheckTimeout(now);
      if expired {
        limit := WithinLimit;
      } else if counter >= maxRetries {
        limit := Exceeded;
      } else {
        var s := BackOff();
        limit, slept := WithinLimit, Some(s);
      }
    }
  }

  /** Whether the last attempt is followed by another one. */
  predicate GoesOn(p: Policy, attempts: seq<Attempt>)
    requires attempts != []
  {
    var n := |attempts| - 1;
    var last := attempts[n];
    match p
    case NeverRestart => false
    case AlwaysRestart(c) => IsAllowed(c, attempts[..n], last)
    case RestartOnFailure(c) => last.exitCode != Some(0) && IsAllowed(c, attempts[..n], last)
  }

  predicate IsAllowed(c: RestartConfig, before: seq<Attempt>, last: Attempt) {
    || last.duration > c.timeoutMs
    || c.maxRetries.None?
    || ShortTail(before, c.timeoutMs) < c.maxRetries.value
  }

  /** The sleep after each attempt that another one follows. */
  function SleepAfter(p: Policy, attempts: seq<Attempt>): Option<nat>
    requires attempts != [] && !p.NeverRestart?
  {
    var n := |attempts| - 1;
    if attempts[n].duration > p.config.timeoutMs then None
    else Some(Delay(p.config.baseMs, ShortTail(attempts[..n], p.config.timeoutMs)))
  }

  datatype Ending = Interrupted | EndedWith(exitCode: Option<int>)

  class JobBackoff {
    const policy: Policy
    const backoff: Option<Backoff>

    constructor (policy: Policy, now: nat)
      ensures this.policy == policy && Valid() && fresh(Repr()) && Count() == 0
    {
      this.policy := policy;
      if policy.NeverRestart? {
        backoff := None;
      } else {
        var b := new Backoff(now, policy.config.baseMs, policy.config.timeoutMs);
        backoff := Some(b);
      }
    }

    function Repr(): set<Backoff> {
      if backoff.Some? then {backoff.value} else {}
    }

    ghost predicate Valid() {
      && (backoff.None? <==> policy.NeverRestart?)
      && (backoff.Some? ==>
            backoff.value.baseMs == policy.config.baseMs && backoff.value.resetTimeout == policy.config.timeoutMs)
    }

    ghost function Count(): nat
      reads Repr()
    {
      if backoff.Some? then backoff.value.counter else 0
    }

    ghost function Started(): nat
      reads Repr()
    {
      if backoff.Some? then backoff.value.timestamp else 0
    }

    method Start(now: nat)
      modifies Repr()
      ensures backoff.Some? ==> Started() == now
      ensures Count() == old(Count())
    {
      if backoff.Some? {
        backoff.value.Start(now);
      }
    }

    /** `stopped`: whether the job goes on after the attempt that just ended. */
    method Stopped(now: nat, ghost before: seq<Attempt>, last: Attempt) returns (goesOn: bool, slept: Option<nat>)
      requires Valid() && (backoff.Some? ==> Started() + last.duration == now)
      requires backoff.Some? ==> Count() == ShortTail(before, policy.config.timeoutMs)
      modifies Repr()
      ensures goesOn <==> GoesOn(policy, before + [last])
      ensures goesOn ==> slept == SleepAfter(policy, before + [last])
      ensures goesOn ==> Count() == ShortTail(before + [last], policy.config.timeoutMs)
    {
      assert (before + [last])[..|before|] == before;
      slept := None;
      if (policy.RestartOnFailure? && last.exitCode == Some(0)) || backoff.None? {
        return false, None;
      }
      if policy.config.maxRetries.Some? {
        var limit;
        limit, slept := backoff.value.WaitWithLimit(now, policy.config.maxRetries.value);
        goesOn := limit.WithinLimit?;
      } else {
        slept := backoff.value.Wait(now);
        goesOn := true;
      }
    }
  }

  /** A legal history: every attempt but the last was followed by another one. */
  ghost predicate IsHistory(p: Policy, attempts: seq<Attempt>) {
    forall i :: 0 < i < |attempts| ==> GoesOn(p, attempts[..i])
  }

  ghost predicate AreSleeps(p: Policy, attempts: seq<Attempt>, sleeps: seq<Option<nat>>) {
    && |sleeps| <= |attempts|
    && forall i :: 0 <= i < |sleeps| ==> IsSleep(p, attempts, i, sleeps[i])
  }

  predicate IsSleep(p: Policy, attempts: seq<Attempt>, i: nat, slept: Option<nat>)
    requires i < |attempts|
  {
    !p.NeverRestart? && slept == SleepAfter(p, attempts[..i + 1])
  }

  lemma SleepsMore(p: Policy, attempts: seq<Attempt>, sleeps: seq<Option<nat>>, last: Attempt)
    requires AreSleeps(p, attempts, sleeps) && |sleeps| == |attempts|
    ensures AreSleeps(p, attempts + [last], sleeps)
    ensures GoesOn(p, attempts + [last]) ==>
              AreSleeps(p, attempts + [last], sleeps + [SleepAfter(p, attempts + [last])])
  {
    var more := attempts + [last];
    forall i | 0 <= i < |sleeps|
      ensures IsSleep(p, more, i, sleeps[i])
    {
      assert IsSleep(p, attempts, i, sleeps[i]);
      assert more[..i + 1] == attempts[..i + 1];
    }
    assert more[..|attempts| + 1] == more;
  }

  // ---- the whole job ------------------------------------------------------

  /** The last `k` attempts did not outlast the reset window. */
  ghost predicate LastAreShort(attempts: seq<Attempt>, k: nat, timeout: nat) {
    k <= |attempts| && forall i :: |attempts| - k <= i < |attempts| ==> attempts[i].duration <= timeout
  }

  lemma {:induction false} ShortTailIs(attempts: seq<Attempt>, k: nat, timeout: nat)
    ensures LastAreShort(attempts, k, timeout) <==> k <= ShortTail(attempts, timeout)
  {
    if attempts != [] && k > 0 {
      var n := |attempts| - 1;
      ShortTailIs(attempts[..n], k - 1, timeout);
      assert LastAreShort(attempts, k, timeout) <==>
             attempts[n].duration <= timeout && LastAreShort(attempts[..n], k - 1, timeout) by {
        assert forall i :: 0 <= i < n ==> attempts[..n][i] == attempts[i];
      }
    }
  }

  /** The retries are used up by the attempts at the end. */
  ghost predicate UsedUp(c: RestartConfig, attempts: seq<Attempt>) {
    c.maxRetries.Some? && LastAreShort(attempts, c.maxRetries.value + 1, c.timeoutMs)
  }

  predicate EndsWithSuccess(attempts: seq<Attempt>) {
    attempts != [] && attempts[|attempts| - 1].exitCode == Some(0)
  }

  /** When a job that made these attempts is over, by its policy: at once, when
      the retries are used up, or also with the first success. */
  ghost predicate IsOver(p: Policy, attempts: seq<Attempt>) {
    match p
    case NeverRestart => attempts != []
    case AlwaysRestart(c) => UsedUp(c, attempts)
    case RestartOnFailure(c) => EndsWithSuccess(attempts) || UsedUp(c, attempts)
  }

  /** Attempts go on until the job is over or the flag is down, and no longer. */
  ghost predicate IsRunOf(p: Policy, attempt: nat -> Attempt, stopAt: nat, ending: Ending, attempts: seq<Attempt>) {
    && |attempts| <= stopAt && (forall i :: 0 <= i < |attempts| ==> attempts[i] == attempt(i))
    && (forall i :: 0 <= i < |attempts| ==> !IsOver(p, attempts[..i]))
    && match ending
       case Interrupted => |attempts| == stopAt && !IsOver(p, attempts)
       case EndedWith(exitCode) =>
         attempts != [] && IsOver(p, attempts) && exitCode == attempts[|attempts| - 1].exitCode
  }

  lemma GoesOnUnlessOver(p: Policy, attempts: seq<Attempt>)
    requires attempts != []
    requires !p.NeverRestart? && p.config.maxRetries.Some? ==>
               ShortTail(attempts, p.config.timeoutMs) <= p.config.maxRetries.value + 1
    ensures GoesOn(p, attempts) <==> !IsOver(p, attempts)
  {
    if !p.NeverRestart? && p.config.maxRetries.Some? {
      ShortTailIs(attempts, p.config.maxRetries.value + 1, p.config.timeoutMs);
    }
  }

  lemma HistoryIsNotOver(p: Policy, attempts: seq<Attempt>)
    requires IsHistory(p, attempts)
    ensures forall i :: 0 <= i < |attempts| ==> !IsOver(p, attempts[..i])
    ensures attempts != [] ==> (GoesOn(p, attempts) <==> !IsOver(p, attempts))
  {
    forall i | 0 < i <= |attempts|
      ensures GoesOn(p, attempts[..i]) <==> !IsOver(p, attempts[..i])
    {
      if !p.NeverRestart? && p.config.maxRetries.Some? {
        ShortAttemptsBounded(p, attempts, i);
      }
      GoesOnUnlessOver(p, attempts[..i]);
    }
    assert attempts[..|attempts|] == attempts;
  }

  lemma HistoryIsRun(p: Policy, attempt: nat -> Attempt, stopAt: nat, ending: Ending, attempts: seq<Attempt>)
    requires IsHistory(p, attempts) && |attempts| <= stopAt
    requires forall i :: 0 <= i < |attempts| ==> attempts[i] == attempt(i)
    requires match ending
             case Interrupted => |attempts| == stopAt && (attempts != [] ==> GoesOn(p, attempts))
             case EndedWith(exitCode) =>
               attempts != [] && !GoesOn(p, attempts) && exitCode == attempts[|attempts| - 1].exitCode
    ensures IsRunOf(p, attempt, stopAt, ending, attempts)
  {
    HistoryIsNotOver(p, attempts);
  }

  /** `try_run_job`, with the run flag down before attempt `stopAt`. */
  method TryRunJob(policy: Policy, attempt: nat -> Attempt, stopAt: nat)
    returns (ending: Ending, attempts: seq<Attempt>, sleeps: seq<Option<nat>>)
    ensures IsRunOf(policy, attempt, stopAt, ending, attempts) && IsHistory(policy, attempts)
    ensures |sleeps| == if ending.EndedWith? then |attempts| - 1 else |attempts|
    ensures AreSleeps(policy, attempts, sleeps)
  {
    var backoff := new JobBackoff(policy, 0);
    var now: nat := 0;
    attempts, sleeps := [], [];
    while |attempts| < stopAt
      invariant |attempts| <= stopAt && forall i :: 0 <= i < |attempts| ==> attempts[i] == attempt(i)
      invariant fresh(backoff.Repr()) && backoff.policy == policy && backoff.Valid()
      invariant !policy.NeverRestart? ==> backoff.Count() == ShortTail(attempts, policy.config.timeoutMs)
      invariant |attempts| > 0 ==> GoesOn(policy, attempts)
      invariant IsHistory(policy, attempts)
      invariant |sleeps| == |attempts|
      invariant AreSleeps(policy, attempts, sleeps)
      decreases stopAt - |attempts|
    {
      backoff.Start(now);
      var last := attempt(|attempts|);
      now := now + last.duration;
      var goesOn, slept := backoff.Stopped(now, attempts, last);
      HistoryMore(policy, attempts, last);
      SleepsMore(policy, attempts, sleeps, last);
      attempts := attempts + [last];
      if !goesOn {
        HistoryIsRun(policy, attempt, stopAt, EndedWith(last.exitCode), attempts);
        return EndedWith(last.exitCode), attempts, sleeps;
      }
      sleeps := sleeps + [slept];
      now := now + (if slept.Some? then slept.value else 0);
    }
    HistoryIsRun(policy, attempt, stopAt, Interrupted, attempts);
    ending := Interrupted;
  }

  lemma HistoryMore(p: Policy, attempts: seq<Attempt>, last: Attempt)
    requires IsHistory(p, attempts) && (attempts != [] ==> GoesOn(p, attempts))
    ensures IsHistory(p, attempts + [last])
  {
    var more := attempts + [last];
    forall i | 0 < i < |more|
      ensures GoesOn(p, more[..i])
    {
      assert more[..i] == attempts[..i];
      assert i == |attempts| ==> attempts[..i] == attempts;
    }
  }

  // ---- how often and how long ---------------------------------------------

  /** With `m` retries no history has more than `m + 1` short attempts in a row. */
  lemma ShortAttemptsBounded(p: Policy, attempts: seq<Attempt>, i: nat)
    requires IsHistory(p, attempts) && i <= |attempts|
    requires !p.NeverRestart? && p.config.maxRetries.Some?
    ensures ShortTail(attempts[..i], p.config.timeoutMs) <= p.config.maxRetries.value + 1
  {
    if i > 1 {
      var front := attempts[..i - 1];
      assert GoesOn(p, front);
      assert attempts[..i][..i - 1] == front;
      var m := p.config.maxRetries.value;
      assert ShortTail(front, p.config.timeoutMs) <= m;
    } else if i == 1 {
      assert attempts[..1][..0] == [];
    }
  }

  lemma NotOverAt(p: Policy, attempt: nat -> Attempt, stopAt: nat, ending: Ending, attempts: seq<Attempt>, i: nat)
    requires IsRunOf(p, attempt, stopAt, ending, attempts) && i < |attempts|
    ensures !IsOver(p, attempts[..i]) && |attempts[..i]| == i && (i > 0 ==> attempts[..i][i - 1] == attempt(i - 1))
  {
  }

  /** A job that is never restarted is tried once, unless it is stopped before. */
  lemma NeverIsTriedOnce(p: Policy, attempt: nat -> Attempt, stopAt: nat, ending: Ending, attempts: seq<Attempt>)
    requires IsRunOf(p, attempt, stopAt, ending, attempts) && p.NeverRestart?
    ensures if stopAt == 0 then ending.Interrupted? && attempts == []
            else ending == EndedWith(attempt(0).exitCode) && |attempts| == 1
  {
    if |attempts| > 1 {
      NotOverAt(p, attempt, stopAt, ending, attempts, 1);
    }
  }

  /** A job that is restarted on failure is not tried again after a success. */
  lemma SuccessIsLast(p: Policy, attempt: nat -> Attempt, stopAt: nat, ending: Ending, attempts: seq<Attempt>, i: nat)
    requires IsRunOf(p, attempt, stopAt, ending, attempts) && p.RestartOnFailure?
    requires i < |attempts| && attempt(i).exitCode == Some(0)
    ensures i == |attempts| - 1 && ending == EndedWith(Some(0))
  {
    if i < |attempts| - 1 {
      NotOverAt(p, attempt, stopAt, ending, attempts, i + 1);
    }
  }

  /** Without a limit a job that is always restarted never ends, and one that is
      restarted on failure ends only with a success. */
  lemma NoLimitNoFailure(p: Policy, attempt: nat -> Attempt, stopAt: nat, ending: Ending, attempts: seq<Attempt>)
    requires IsRunOf(p, attempt, stopAt, ending, attempts) && !p.NeverRestart? && p.config.maxRetries.None?
    ensures p.AlwaysRestart? ==> ending.Interrupted? && |attempts| == stopAt
    ensures ending.EndedWith? ==> ending.exitCode == Some(0)
    ensures p.RestartOnFailure? ==>
              (ending.Interrupted? <==> forall i :: 0 <= i < stopAt ==> attempt(i).exitCode != Some(0))
  {
    if p.RestartOnFailure? && ending.Interrupted? {
      forall i | 0 <= i < stopAt
        ensures attempt(i).exitCode != Some(0)
      {
        if attempt(i).exitCode == Some(0) {
          SuccessIsLast(p, attempt, stopAt, ending, attempts, i);
        }
      }
    }
  }

  /** With `m` retries a job ends, other than by a success that is not followed
      by a restart, exactly with the first `m + 1` short attempts in a row. */
  lemma EndsWhenUsedUp(p: Policy, attempt: nat -> Attempt, stopAt: nat, ending: Ending, attempts: seq<Attempt>)
    requires IsRunOf(p, attempt, stopAt, ending, attempts) && !p.NeverRestart? && p.config.maxRetries.Some?
    ensures var k, timeout := p.config.maxRetries.value + 1, p.config.timeoutMs;
            && (LastAreShort(attempts, k, timeout) ==> ending.EndedWith?)
            && (ending.EndedWith? && (p.RestartOnFailure? ==> ending.exitCode != Some(0)) ==>
                  LastAreShort(attempts, k, timeout))
            && forall i :: 0 <= i < |attempts| ==> !LastAreShort(attempts[..i], k, timeout)
  {
    forall i | 0 <= i < |attempts|
      ensures !UsedUp(p.config, attempts[..i])
    {
      NotOverAt(p, attempt, stopAt, ending, attempts, i);
    }
  }

  lemma UsedUpByDurations(c: RestartConfig, a: seq<Attempt>, b: seq<Attempt>)
    requires |a| == |b| && forall i :: 0 <= i < |a| ==> a[i].duration == b[i].duration
    requires UsedUp(c, a)
    ensures UsedUp(c, b)
  {
  }

  /** For a job that is always restarted only the durations count, not how its
      attempts end. */
  lemma ExitCodesDoNotMatter(p: Policy, a: nat -> Attempt, b: nat -> Attempt, stopAt: nat,
                             endA: Ending, endB: Ending, triesA: seq<Attempt>, triesB: seq<Attempt>)
    requires p.AlwaysRestart? && forall i: nat :: a(i).duration == b(i).duration
    requires IsRunOf(p, a, stopAt, endA, triesA) && IsRunOf(p, b, stopAt, endB, triesB)
    ensures |triesA| == |triesB| && (endA.EndedWith? <==> endB.EndedWith?)
  {
    if |triesA| < |triesB| {
      NotOverAt(p, b, stopAt, endB, triesB, |triesA|);
      UsedUpByDurations(p.config, triesA, triesB[..|triesA|]);
    } else if |triesB| < |triesA| {
      NotOverAt(p, a, stopAt, endA, triesA, |triesB|);
      UsedUpByDurations(p.config, triesB, triesA[..|triesB|]);
    } else if endA.EndedWith? {
      UsedUpByDurations(p.config, triesA, triesB);
    }
  }

  lemma {:induction false} AllShort(attempts: seq<Attempt>, timeout: nat)
    ensures ShortTail(attempts, timeout) == |attempts| <==> forall i :: 0 <= i < |attempts| ==>
            attempts[i].duration <= timeout
  {
    if attempts != [] {
      var n := |attempts| - 1;
      AllShort(attempts[..n], timeout);
      assert forall i :: 0 <= i < n ==> attempts[..n][i] == attempts[i];
    }
  }

  /** A job whose attempts all fail within the window ends after exactly
      `m + 1` attempts. */
  lemma ShortFailuresEndAfter(p: Policy, attempts: seq<Attempt>)
    requires IsHistory(p, attempts) && attempts != []
    requires !p.NeverRestart? && p.config.maxRetries.Some?
    requires forall i :: 0 <= i < |attempts| ==>
               attempts[i].exitCode != Some(0) && attempts[i].duration <= p.config.timeoutMs
    ensures |attempts| <= p.config.maxRetries.value + 1
    ensures GoesOn(p, attempts) <==> |attempts| < p.config.maxRetries.value + 1
  {
    var n := |attempts| - 1;
    AllShort(attempts, p.config.timeoutMs);
    AllShort(attempts[..n], p.config.timeoutMs);
    ShortAttemptsBounded(p, attempts, |attempts|);
    assert attempts[..|attempts|] == attempts;
  }

  /** An attempt that outlasts the window clears the count, and is followed by
      the next one without a sleep. */
  lemma LongAttemptResets(p: Policy, attempts: seq<Attempt>)
    requires attempts != [] && !p.NeverRestart?
    requires attempts[|attempts| - 1].duration > p.config.timeoutMs && attempts[|attempts| - 1].exitCode != Some(0)
    ensures GoesOn(p, attempts) && SleepAfter(p, attempts).None?
    ensures ShortTail(attempts, p.config.timeoutMs) == 0
  {
  }

  /** What was slept since the last reset. */
  function SleptSinceReset(p: Policy, attempts: seq<Attempt>): nat
    requires !p.NeverRestart?
  {
    if attempts == [] then 0
    else
      match SleepAfter(p, attempts)
      case None => 0
      case Some(ms) => SleptSinceReset(p, attempts[..|attempts| - 1]) + ms
  }

  lemma {:induction false} SleptIsGeometric(p: Policy, attempts: seq<Attempt>)
    requires !p.NeverRestart?
    ensures SleptSinceReset(p, attempts) == p.config.baseMs * (Pow2(ShortTail(attempts, p.config.timeoutMs)) - 1)
  {
    if attempts != [] && attempts[|attempts| - 1].duration <= p.config.timeoutMs {
      var front := attempts[..|attempts| - 1];
      SleptIsGeometric(p, front);
      Doubles(p.config.baseMs, Pow2(ShortTail(front, p.config.timeoutMs)));
    }
  }

  lemma Doubles(base: nat, x: nat)
    ensures base * (x - 1) + base * x == base * (2 * x - 1)
  {
  }
}
