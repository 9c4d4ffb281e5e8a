/** The submit loop of RelayTask (controller/relay.go): settle once on success, refund on failure. */
module TaskRelay {
  import opened Basics
  import opened RetryBudget

  /** dto.TaskError. */
  datatype TaskError = TaskError(id: int, localError: bool, status: int, statusRetryable: bool)

  datatype Context = Context(specificChannel: bool, affinitySkips: bool)

  /** shouldRetryTaskRelayWithReason, without the reason text. */
  predicate ShouldRetryTask(c: Context, channelId: int, locked: bool, err: TaskError, remaining: int) {
    if err.localError then false
    else if remaining <= 0 then false
    else if c.specificChannel then false
    else if locked then false
    else if channelId > 0 then true
    else if c.affinitySkips then false
    else if 200 <= err.status < 300 then false
    else if err.status < 100 || err.status > 599 then true
    else err.statusRetryable
  }

  /** The settings, and whether ResolveOriginTask has bound the request to the channel of an earlier task; it does so
      once, before the loop. */
  datatype Job = Job(cfg: Config, locked: bool)

  /** One turn: setting the locked channel up again on a retry, or selecting one; the body; and the submission, which
      may create the billing session and either fails or yields the quota. */
  datatype Attempt = Attempt(
    lockedSetupOk: bool, pick: Pick, channelId: int, bodyOk: bool,
    createsBilling: bool, submit: Option<TaskError>, quota: int, ctx: Context)

  datatype Failure = LockedSetupFailed | NoChannel | NoBody | SubmitFailed(err: TaskError)

  datatype Loop = Loop(
    retry: Retry,
    failure: Option<Failure>,     // taskErr
    willRetry: Option<bool>,      // the verdict in the context
    attempts: nat,
    billing: bool,
    quota: Option<int>,           // result.Quota
    upstream: seq<TaskError>,     // non-local submit errors
    warned: seq<TaskError>,
    logged: seq<TaskError>,
    done: bool)                   // left by a break

  function Processed(s: Loop, err: TaskError): Loop {
    if s.willRetry == Some(true) then s.(warned := s.warned + [err]) else s.(logged := s.logged + [err])
  }

  function Exhausted(s: Loop): Loop {
    if s.failure.Some? && s.failure.value.SubmitFailed? && !s.failure.value.err.localError
    then Processed(s.(willRetry := Some(false)), s.failure.value.err) else s
  }

  function Submitted(job: Job, a: Attempt, s: Loop): Loop {
    var s := s.(billing := s.billing || a.createsBilling);
    if a.submit.None? then s.(failure := None, quota := Some(a.quota), done := true)
    else
      var err := a.submit.value;
      Rejected(s, err, ShouldRetryTask(a.ctx, a.channelId, job.locked, err, job.cfg.retryTimes - s.retry.count))
  }

  /** A failed submission and its verdict. */
  function Rejected(s: Loop, err: TaskError, will: bool): Loop {
    var s := s.(failure := Some(SubmitFailed(err)), willRetry := Some(will), done := !will);
    if err.localError then s else Processed(s.(upstream := s.upstream + [err]), err)
  }

  /** The turn that finds no channel. */
  function GaveUp(s: Loop): Loop {
    Exhausted(s).(failure := Some(NoChannel), done := true)
  }

  /** The turn once a channel is set up. */
  function Served(job: Job, a: Attempt, s: Loop): Loop {
    if !a.bodyOk then s.(failure := Some(NoBody), done := true) else Submitted(job, a, s)
  }

  /** A locked channel is used without asking for a selection. */
  function Choice(job: Job, a: Attempt): Pick {
    if job.locked then Preset else a.pick
  }

  /** One turn of the loop body. */
  function Turn(job: Job, a: Attempt, s: Loop): Loop {
    var pick := Choice(job, a);
    var s' := s.(attempts := s.attempts + 1, retry := AfterPick(job.cfg, s.retry, pick));
    if job.locked && s.retry.count > 0 && !a.lockedSetupOk then s'.(failure := Some(LockedSetupFailed), done := true)
    else if Succeeds(job.cfg, s.retry, pick) then Served(job, a, s')
    else GaveUp(s')
  }

  function RunLoop(job: Job, script: nat -> Attempt, s: Loop): Loop
    requires Live(job.cfg, s.retry)
    decreases Budget(job.cfg, s.retry)
  {
    var a := script(s.attempts);
    var s' := Turn(job, a, s);
    if s'.done then s'
    else
      GoesOn(job, a, s);
      RetrySpends(job.cfg, s.retry, Choice(job, a));
      RunLoop(job, script, s'.(retry := Increase(s'.retry)))
  }

  /** A turn that lets the loop go on chose a channel, left something of the counter, and was not locked. */
  lemma GoesOn(job: Job, a: Attempt, s: Loop)
    requires !Turn(job, a, s).done
    ensures var pick := Choice(job, a);
            && !job.locked && Turn(job, a, s).attempts == s.attempts + 1
            && Succeeds(job.cfg, s.retry, pick) && Turn(job, a, s).retry == AfterPick(job.cfg, s.retry, pick)
            && job.cfg.retryTimes - AfterPick(job.cfg, s.retry, pick).count > 0
  {
  }

  datatype Result = Result(loop: Loop, settled: seq<int>, inserted: nat, refunds: nat, ranOut: bool)

  function Started(group: nat): Loop {
    Loop(Retry(0, false, group), None, None, 0, false, None, [], [], [], false)
  }

  /** The submit loop, then settlement or the error reply, then the deferred refund. */
  method RelayTask(job: Job, group: nat, script: nat -> Attempt) returns (r: Result)
    requires job.cfg.retryTimes >= 0 && group <= job.cfg.groups
    ensures r.loop == RunLoop(job, script, Started(group)) && !r.ranOut
    ensures r.settled == (if r.loop.failure.None? && r.loop.quota.Some? then [r.loop.quota.value] else [])
    ensures r.inserted == |r.settled|
    ensures r.refunds == if r.loop.failure.Some? && r.loop.billing then 1 else 0
  {
    ghost var start := Started(group);
    var now := Started(group);
    while !now.done && now.retry.count <= job.cfg.retryTimes
      invariant if now.done then now == RunLoop(job, script, start)
                else Live(job.cfg, now.retry) && RunLoop(job, script, now) == RunLoop(job, script, start)
      decreases !now.done, if Live(job.cfg, now.retry) then Budget(job.cfg, now.retry) else 0
    {
      var a := script(now.attempts);
      ghost var before := now;
      now := TakeTurn(job, a, now);
      if !now.done {
        GoesOn(job, a, before);
        RetrySpends(job.cfg, before.retry, Choice(job, a));
        now := now.(retry := Increase(now.retry));
      }
    }
    var settled: seq<int>, inserted, refunds := [], 0, 0;
    if now.failure.None? && now.quota.Some? {
      settled, inserted := settled + [now.quota.value], inserted + 1;
    }
    if now.failure.Some? && now.billing {
      refunds := refunds + 1;
    }
    r := Result(now, settled, inserted, refunds, !now.done);
  }

  /** The loop body. */
  method TakeTurn(job: Job, a: Attempt, before: Loop) returns (s: Loop)
    ensures s == Turn(job, a, before)
  {
    var retry, failure, willRetry, billing := before.retry, before.failure, before.willRetry, before.billing;
    var quota, done := before.quota, before.done;
    var upstream, warned, logged := before.upstream, before.warned, before.logged;
    var attempts := before.attempts + 1;
    if job.locked {
      if retry.count > 0 && !a.lockedSetupOk {
        return before.(attempts := attempts, failure := Some(LockedSetupFailed), done := true);
      }
    } else {
      retry := AfterPick(job.cfg, before.retry, a.pick);
      if !Succeeds(job.cfg, before.retry, a.pick) {
        if failure.Some? && failure.value.SubmitFailed? && !failure.value.err.localError {
          willRetry := Some(false);
          logged := logged + [failure.value.err];
        }
        return Loop(retry, Some(NoChannel), willRetry, attempts, billing, quota, upstream, warned, logged, true);
      }
    }
    if !a.bodyOk {
      failure, done := Some(NoBody), true;
    } else {
      billing := billing || a.createsBilling;
      if a.submit.None? {
        failure, quota, done := None, Some(a.quota), true;
      } else {
        var err := a.submit.value;
        failure := Some(SubmitFailed(err));
        var again := ShouldRetryTask(a.ctx, a.channelId, job.locked, err, job.cfg.retryTimes - retry.count);
        willRetry := Some(again);
        if !err.localError {
          upstream := upstream + [err];
          if again {
            warned := warned + [err];
          } else {
            logged := logged + [err];
          }
        }
        done := !again;
      }
    }
    s := Loop(retry, failure, willRetry, attempts, billing, quota, upstream, warned, logged, done);
  }

  // ---------------------------------------------------------------- what a run does

  /** Between turns: only retryable upstream errors so far, and nothing to settle; a locked channel has no second
      turn. */
  ghost predicate AllWarned(job: Job, s: Loop) {
    && !s.done && s.logged == [] && s.warned == s.upstream && s.quota.None?
    && (s.upstream != [] ==> !s.upstream[|s.upstream| - 1].localError)
    && s.failure == (if s.upstream == [] then None else Some(SubmitFailed(s.upstream[|s.upstream| - 1])))
    && s.willRetry == (if s.upstream == [] then None else Some(true))
    && (job.locked ==> s.retry.count == 0 && s.upstream == [])
  }

  /** At the end: success with one quota to settle and nothing logged, or one failure. A submission that failed for
      good and an exhausted channel list leave the verdict "no retry" and log the last upstream error once.
      Success and an unreadable body leave the last "will retry" verdict standing and log nothing. */
  ghost predicate Accounted(s: Loop) {
    && s.done
    && (s.failure.None? <==> s.quota.Some?)
    && s.failure != Some(LockedSetupFailed)
    && (s.failure == None || s.failure == Some(NoBody) ==>
          s.logged == [] && s.warned == s.upstream && s.willRetry == (if s.upstream == [] then None else Some(true)))
    && (s.failure == Some(NoChannel) ==>
          && s.warned == s.upstream && s.logged == (if s.upstream == [] then [] else [s.upstream[|s.upstream| - 1]])
          && s.willRetry == (if s.upstream == [] then None else Some(false)))
    && (s.failure.Some? && s.failure.value.SubmitFailed? ==>
          && s.willRetry == Some(false)
          && s.upstream == s.warned + s.logged
          && s.logged == if s.failure.value.err.localError then [] else [s.failure.value.err])
  }

  ghost predicate TurnedWell(job: Job, s: Loop, s': Loop) {
    s'.attempts == s.attempts && if s'.done then Accounted(s') else AllWarned(job, s'.(retry := s.retry)) && !job.locked
  }

  lemma TurnAccounts(job: Job, a: Attempt, s: Loop)
    requires AllWarned(job, s)
    ensures TurnedWell(job, s.(attempts := s.attempts + 1), Turn(job, a, s))
  {
    var pick := Choice(job, a);
    var s1 := s.(attempts := s.attempts + 1, retry := AfterPick(job.cfg, s.retry, pick));
    if Succeeds(job.cfg, s.retry, pick) {
      assert Turn(job, a, s) == Served(job, a, s1);
      ServedAccounts(job, a, s1);
    } else {
      assert Turn(job, a, s) == GaveUp(s1);
      GaveUpAccounts(job, s1);
    }
  }

  lemma GaveUpAccounts(job: Job, s: Loop)
    requires AllWarned(job, s)
    ensures TurnedWell(job, s, GaveUp(s))
  {
  }

  lemma ServedAccounts(job: Job, a: Attempt, s: Loop)
    requires AllWarned(job, s)
    ensures TurnedWell(job, s, Served(job, a, s))
  {
    if a.bodyOk {
      assert Served(job, a, s) == Submitted(job, a, s);
      SubmitAccounts(job, a, s);
    }
  }

  lemma SubmitAccounts(job: Job, a: Attempt, s: Loop)
    requires AllWarned(job, s)
    ensures TurnedWell(job, s, Submitted(job, a, s))
  {
    var s1 := s.(billing := s.billing || a.createsBilling);
    if a.submit.Some? {
      var err := a.submit.value;
      var will := ShouldRetryTask(a.ctx, a.channelId, job.locked, err, job.cfg.retryTimes - s.retry.count);
      assert Submitted(job, a, s) == Rejected(s1, err, will);
      RejectedAccounts(job, s1, err, will);
    }
  }

  lemma RejectedAccounts(job: Job, s: Loop, err: TaskError, will: bool)
    requires AllWarned(job, s) && (will ==> !err.localError && !job.locked)
    ensures TurnedWell(job, s, Rejected(s, err, will))
  {
    var s' := Rejected(s, err, will);
    if !err.localError {
      assert s'.upstream == s.upstream + [err];
      if will {
        assert s'.warned == s.warned + [err] && s'.logged == [];
      } else {
        assert s'.warned == s.warned && s'.logged == [err];
      }
    }
  }

  lemma {:induction false} RunAccounts(job: Job, script: nat -> Attempt, s: Loop)
    requires Live(job.cfg, s.retry) && AllWarned(job, s)
    ensures var f := RunLoop(job, script, s);
            Accounted(f) && f.attempts <= s.attempts + Budget(job.cfg, s.retry) + 1
    decreases Budget(job.cfg, s.retry)
  {
    var a := script(s.attempts);
    var s' := Turn(job, a, s);
    TurnAccounts(job, a, s);
    if !s'.done {
      GoesOn(job, a, s);
      RetrySpends(job.cfg, s.retry, Choice(job, a));
      var next := s'.(retry := Increase(s'.retry));
      assert AllWarned(job, next);
      RunAccounts(job, script, next);
    }
  }

  /** EVERY TASK RUN. Exactly one of "settled once", at the quota the last submission returned, and "ended with an
      error" happens; the refund runs once iff the task failed after some submission had created billing; the loop
      always ends by a break, so never by its counter after a "will retry" verdict. */
  method RunTask(job: Job, group: nat, script: nat -> Attempt) returns (r: Result)
    requires job.cfg.retryTimes >= 0 && group <= job.cfg.groups
    ensures r.loop.attempts >= 1
    ensures r.settled == if r.loop.failure.None? then [script(r.loop.attempts - 1).quota] else []
    ensures r.inserted == if r.loop.failure.None? then 1 else 0
    ensures r.refunds == if r.loop.failure.Some? && Billed(job, script, group, r.loop.attempts) then 1 else 0
    ensures r.loop.failure == EndsWith(job, script, group, r.loop.attempts - 1)
    ensures !r.ranOut && Accounted(r.loop)
    ensures r.loop.attempts <= (job.cfg.groups - group + 1) * (job.cfg.retryTimes + 1)
    ensures job.locked ==> r.loop.attempts == 1
  {
    r := RelayTask(job, group, script);
    TaskFacts(job, group, script);
  }

  lemma TaskFacts(job: Job, group: nat, script: nat -> Attempt)
    requires job.cfg.retryTimes >= 0 && group <= job.cfg.groups
    ensures var f := RunLoop(job, script, Started(group));
            && f.attempts >= 1 && Accounted(f)
            && f.attempts <= (job.cfg.groups - group + 1) * (job.cfg.retryTimes + 1)
            && (job.locked ==> f.attempts == 1)
            && f.failure == EndsWith(job, script, group, f.attempts - 1)
            && f.quota == (if f.failure.None? then Some(script(f.attempts - 1).quota) else None)
            && (f.billing <==> Billed(job, script, group, f.attempts))
  {
    RunAccounts(job, script, Started(group));
    FullBudget(job.cfg, group);
    LockedTakesOneTurn(job, group, script);
    RunWrittenOut(job, group, script);
  }

  /** A task bound to the channel of an earlier one is submitted exactly once: it is never retried, with that channel
      or another, and the branch that would set the channel up again is never reached. */
  lemma LockedTakesOneTurn(job: Job, group: nat, script: nat -> Attempt)
    requires job.cfg.retryTimes >= 0 && group <= job.cfg.groups
    ensures var f := RunLoop(job, script, Started(group));
            f.failure != Some(LockedSetupFailed) && (job.locked ==> f.attempts == 1)
  {
    var start, a := Started(group), script(0);
    RunAccounts(job, script, start);
    TurnAccounts(job, a, start);
    if job.locked {
      assert Turn(job, a, start).done;
    }
  }

  // ---------------------------------------------------------------- the run, written out

  /** An error worth a retry: not local, on neither a pinned nor a bound channel, and while a channel is selected, or
      else one that no channel affinity forbids to retry and whose status is out of range or retryable. */
  predicate WorthRetry(job: Job, a: Attempt, err: TaskError) {
    && !err.localError && !a.ctx.specificChannel && !job.locked
    && (a.channelId > 0 ||
        (!a.ctx.affinitySkips && !(200 <= err.status <= 299) && (!(100 <= err.status <= 599) || err.statusRetryable)))
  }

  lemma VerdictWrittenOut(job: Job, a: Attempt, err: TaskError, remaining: int)
    ensures ShouldRetryTask(a.ctx, a.channelId, job.locked, err, remaining) <==>
            remaining > 0 && WorthRetry(job, a, err)
  {
  }

  function Picks(job: Job, script: nat -> Attempt): nat -> Pick {
    (k: nat) => Choice(job, script(k))
  }

  /** Turn k reaches the submission. */
  predicate Submits(job: Job, script: nat -> Attempt, group: nat, k: nat) {
    GetsChannel(job.cfg, Picks(job, script), group, k) && script(k).bodyOk
  }

  /** Turn k is followed by another. */
  predicate FollowedBy(job: Job, script: nat -> Attempt, group: nat, k: nat) {
    && Submits(job, script, group, k) && script(k).submit.Some?
    && LeftAt(job.cfg, Picks(job, script), group, k) > 0 && WorthRetry(job, script(k), script(k).submit.value)
  }

  /** How a task ends whose last turn is k. */
  function EndsWith(job: Job, script: nat -> Attempt, group: nat, k: nat): Option<Failure> {
    if !GetsChannel(job.cfg, Picks(job, script), group, k) then Some(NoChannel)
    else if !script(k).bodyOk then Some(NoBody)
    else if script(k).submit.None? then None
    else Some(SubmitFailed(script(k).submit.value))
  }

  /** Some submission before turn n created billing. */
  ghost predicate Billed(job: Job, script: nat -> Attempt, group: nat, n: nat) {
    exists k: nat :: k < n && Submits(job, script, group, k) && script(k).createsBilling
  }

  ghost predicate ErrorsOf(upstream: seq<TaskError>, script: nat -> Attempt) {
    forall k :: 0 <= k < |upstream| ==> script(k).submit.Some? && upstream[k] == script(k).submit.value
  }

  /** From turn m up to n, every turn but the last is followed by another. */
  ghost predicate TurnsGoOn(job: Job, script: nat -> Attempt, group: nat, m: nat, n: nat) {
    m < n && forall k: nat :: m <= k < n ==> (k + 1 < n <==> FollowedBy(job, script, group, k))
  }

  lemma TurnsGoOnFrom(job: Job, script: nat -> Attempt, group: nat, m: nat, n: nat)
    requires FollowedBy(job, script, group, m) && TurnsGoOn(job, script, group, m + 1, n)
    ensures TurnsGoOn(job, script, group, m, n)
  {
  }

  /** The end of a run: its last turn says how it ended and at what quota, its upstream errors are those of its turns,
      and billing exists iff a submission created it. */
  ghost predicate EndsAsScripted(job: Job, script: nat -> Attempt, group: nat, f: Loop) {
    && f.attempts >= 1
    && f.failure == EndsWith(job, script, group, f.attempts - 1)
    && f.quota == (if f.failure.None? then Some(script(f.attempts - 1).quota) else None)
    && (f.billing <==> Billed(job, script, group, f.attempts))
    && ErrorsOf(f.upstream, script)
    && |f.upstream| == if f.failure.Some? && f.failure.value.SubmitFailed? && !f.failure.value.err.localError
                       then f.attempts else f.attempts - 1
  }

  /** A loop head reached by the script; a bound task has only the first. */
  ghost predicate OnScript(job: Job, script: nat -> Attempt, group: nat, s: Loop) {
    && s.retry == HeadAt(job.cfg, Picks(job, script), group, s.attempts) && !s.done && s.quota.None?
    && |s.upstream| == s.attempts && ErrorsOf(s.upstream, script)
    && (s.billing <==> Billed(job, script, group, s.attempts))
    && (job.locked ==> s.attempts == 0)
  }

  lemma BilledStep(job: Job, script: nat -> Attempt, group: nat, k: nat)
    ensures Billed(job, script, group, k + 1) <==>
            Billed(job, script, group, k) || (Submits(job, script, group, k) && script(k).createsBilling)
  {
  }

  lemma TurnFollows(job: Job, script: nat -> Attempt, group: nat, s: Loop)
    requires OnScript(job, script, group, s)
    ensures var s' := Turn(job, script(s.attempts), s);
            && s'.attempts == s.attempts + 1
            && (!s'.done <==> FollowedBy(job, script, group, s.attempts))
            && EndsAsScripted(job, script, group, s')
            && (!s'.done ==> OnScript(job, script, group, s'.(retry := Increase(s'.retry))))
  {
    var a := script(s.attempts);
    var s1 := Entered(job, a, s);
    GetsChannelIff(job.cfg, Picks(job, script), group, s.attempts);
    TurnCases(job, a, s);
    if Submits(job, script, group, s.attempts) {
      SubmissionFollows(job, script, group, s, s1);
    } else {
      NoSubmissionFollows(job, script, group, s, Turn(job, a, s));
    }
  }

  /** The loop state once the turn has looked for its channel. */
  function Entered(job: Job, a: Attempt, s: Loop): Loop {
    s.(attempts := s.attempts + 1, retry := AfterPick(job.cfg, s.retry, Choice(job, a)))
  }

  lemma TurnCases(job: Job, a: Attempt, s: Loop)
    requires job.locked ==> s.retry.count == 0
    ensures var s1, s' := Entered(job, a, s), Turn(job, a, s);
            if Succeeds(job.cfg, s.retry, Choice(job, a)) && a.bodyOk then s' == Submitted(job, a, s1)
            else && s'.done && s'.attempts == s.attempts + 1 && s'.quota == s.quota && s'.billing == s.billing
                 && s'.upstream == s.upstream
                 && s'.failure == Some(if Succeeds(job.cfg, s.retry, Choice(job, a)) then NoBody else NoChannel)
  {
  }

  lemma NoSubmissionFollows(job: Job, script: nat -> Attempt, group: nat, s: Loop, s': Loop)
    requires OnScript(job, script, group, s) && !Submits(job, script, group, s.attempts)
    requires s'.attempts == s.attempts + 1 && s'.failure == EndsWith(job, script, group, s.attempts)
    requires s'.quota == s.quota && s'.billing == s.billing && s'.upstream == s.upstream
    ensures EndsAsScripted(job, script, group, s') && !FollowedBy(job, script, group, s.attempts)
  {
    BilledStep(job, script, group, s.attempts);
  }

  lemma SubmissionFollows(job: Job, script: nat -> Attempt, group: nat, s: Loop, s1: Loop)
    requires OnScript(job, script, group, s) && Submits(job, script, group, s.attempts)
    requires s1 == Entered(job, script(s.attempts), s)
    ensures var s' := Submitted(job, script(s.attempts), s1);
            && s'.attempts == s.attempts + 1
            && (!s'.done <==> FollowedBy(job, script, group, s.attempts))
            && EndsAsScripted(job, script, group, s')
            && (!s'.done ==> OnScript(job, script, group, s'.(retry := Increase(s'.retry))))
  {
    var k, a := s.attempts, script(s.attempts);
    BilledStep(job, script, group, k);
    if a.submit.Some? {
      VerdictWrittenOut(job, a, a.submit.value, LeftAt(job.cfg, Picks(job, script), group, k));
      if !a.submit.value.localError {
        assert Submitted(job, a, s1).upstream == s.upstream + [a.submit.value];
      }
    }
  }

  lemma {:induction false} RunFollows(job: Job, script: nat -> Attempt, group: nat, s: Loop)
    requires Live(job.cfg, s.retry) && OnScript(job, script, group, s)
    ensures var f := RunLoop(job, script, s);
            TurnsGoOn(job, script, group, s.attempts, f.attempts) && EndsAsScripted(job, script, group, f)
    decreases Budget(job.cfg, s.retry)
  {
    var a := script(s.attempts);
    var s' := Turn(job, a, s);
    TurnFollows(job, script, group, s);
    if !s'.done {
      GoesOn(job, a, s);
      RetrySpends(job.cfg, s.retry, Choice(job, a));
      var next := s'.(retry := Increase(s'.retry));
      RunFollows(job, script, group, next);
      TurnsGoOnFrom(job, script, group, s.attempts, RunLoop(job, script, next).attempts);
    }
  }

  /** THE RUN, WRITTEN OUT. Which turns a task takes, how it ends, at what quota, with which upstream errors and whether
      billing exists follow from what its turns meet. */
  lemma RunWrittenOut(job: Job, group: nat, script: nat -> Attempt)
    requires job.cfg.retryTimes >= 0 && group <= job.cfg.groups
    ensures var f := RunLoop(job, script, Started(group));
            TurnsGoOn(job, script, group, 0, f.attempts) && EndsAsScripted(job, script, group, f)
  {
    RunFollows(job, script, group, Started(group));
  }

  /** A turn whose error is local, or on a pinned channel, is the last; and without groups a turn of an unbound task
      that fails upstream while a channel is selected is followed by another as long as RetryTimes allows. */
  lemma RetryLaws(job: Job, group: nat, script: nat -> Attempt, k: nat)
    requires job.cfg.retryTimes >= 0 && group <= job.cfg.groups
    requires k < RunLoop(job, script, Started(group)).attempts && script(k).submit.Some?
    ensures var n, a := RunLoop(job, script, Started(group)).attempts, script(k);
            && (a.submit.value.localError || a.ctx.specificChannel || job.locked ==> k == n - 1)
            && (job.cfg.groups == 0 && !job.locked && (a.pick.Preset? || a.pick.Found?) && a.bodyOk &&
                !a.submit.value.localError && !a.ctx.specificChannel && a.channelId > 0 ==>
                  (k < n - 1 <==> k < job.cfg.retryTimes))
  {
    RunWrittenOut(job, group, script);
    assert k + 1 < RunLoop(job, script, Started(group)).attempts <==> FollowedBy(job, script, group, k);
    if job.cfg.groups == 0 {
      PlainCounter(job.cfg, Picks(job, script), k);
    }
  }

  // ---------------------------------------------------------------- the exact limits

  /** As in Relay, the first turn takes the channel in the context and every later one selects. */
  ghost predicate ContextChannelFirst(script: nat -> Attempt) {
    script(0).pick.Preset? && forall k: nat :: k > 0 ==> !script(k).pick.Preset?
  }

  /** The most turns of a task, and the most submissions. */
  function TaskTurns(job: Job, group: nat): int {
    if job.locked then 1 else MaxTurns(job.cfg, group)
  }

  function TaskCalls(job: Job, group: nat): int {
    if job.locked then 1 else MaxCalls(job.cfg, group)
  }

  /** Turns that got a channel. */
  function Calls(f: Loop): int {
    if f.failure == Some(NoChannel) then f.attempts - 1 else f.attempts
  }

  /** What the last turn shows of a silent end. */
  ghost predicate SilentEnd(f: Loop, script: nat -> Attempt)
    requires f.attempts >= 1
  {
    var a := script(f.attempts - 1);
    && (f.failure == Some(NoBody) ==> !a.bodyOk)
    && (f.failure.Some? && f.failure.value.SubmitFailed? && f.failure.value.err.localError ==>
          a.submit.Some? && a.submit.value.localError)
  }

  predicate Silent(f: Loop) {
    f.failure == Some(NoBody) || (f.failure.Some? && f.failure.value.SubmitFailed? && f.failure.value.err.localError)
  }

  lemma OneTurn(job: Job, a: Attempt, s: Loop)
    requires !s.done && !job.locked
    ensures var s' := Turn(job, a, s);
            && s'.attempts == s.attempts + 1
            && (!s'.done ==> |s'.upstream| == |s.upstream| + 1)
            && (s'.done ==> (s'.failure == Some(NoChannel) <==> !Succeeds(job.cfg, s.retry, a.pick)))
            && (s'.done && s'.failure == Some(NoBody) ==> !a.bodyOk && s'.upstream == s.upstream)
            && (s'.done && Silent(s') && s'.failure != Some(NoBody) ==>
                  a.submit.Some? && a.submit.value.localError && s'.upstream == s.upstream)
  {
  }

  lemma {:induction false} WithinLimits(job: Job, script: nat -> Attempt, s: Loop)
    requires Live(job.cfg, s.retry) && job.cfg.retryTimes >= 1 && !s.done && !job.locked
    requires forall k: nat :: k >= s.attempts ==> !script(k).pick.Preset?
    ensures var f := RunLoop(job, script, s);
            f.attempts <= s.attempts + TurnsLeft(job.cfg, s.retry) &&
                Calls(f) <= s.attempts + CallsLeft(job.cfg, s.retry)
    decreases Budget(job.cfg, s.retry)
  {
    var a := script(s.attempts);
    var s' := Turn(job, a, s);
    OneTurn(job, a, s);
    LeftBounds(job.cfg, s.retry);
    if !s'.done {
      GoesOn(job, a, s);
      RetrySpends(job.cfg, s.retry, a.pick);
      PickSpends(job.cfg, s.retry, a.pick);
      WithinLimits(job, script, s'.(retry := Increase(s'.retry)));
    }
  }

  lemma {:induction false} SilentEnds(job: Job, script: nat -> Attempt, s: Loop)
    requires Live(job.cfg, s.retry) && !s.done && !job.locked
    ensures var f := RunLoop(job, script, s);
            && f.attempts >= 1 && SilentEnd(f, script)
            && (Silent(f) ==> |f.upstream| - |s.upstream| == f.attempts - 1 - s.attempts)
    decreases Budget(job.cfg, s.retry)
  {
    var a := script(s.attempts);
    var s' := Turn(job, a, s);
    OneTurn(job, a, s);
    if !s'.done {
      GoesOn(job, a, s);
      RetrySpends(job.cfg, s.retry, a.pick);
      SilentEnds(job, script, s'.(retry := Increase(s'.retry)));
    }
  }

  /** No task that starts with the channel in the context takes more turns or makes more submissions. */
  lemma LimitsHold(job: Job, group: nat, script: nat -> Attempt)
    requires group <= job.cfg.groups && job.cfg.retryTimes >= 0 && ContextChannelFirst(script)
    ensures var f := RunLoop(job, script, Started(group));
            f.attempts <= TaskTurns(job, group) && Calls(f) <= TaskCalls(job, group)
  {
    if job.locked {
      LockedTakesOneTurn(job, group, script);
    } else {
      var start, a := Started(group), script(0);
      var s' := Turn(job, a, start);
      OneTurn(job, a, start);
      if s'.done {
        LimitsPositive(job.cfg, group);
      } else {
        GoesOn(job, a, start);
        RetrySpends(job.cfg, start.retry, a.pick);
        WithinLimits(job, script, s'.(retry := Increase(s'.retry)));
        LimitsAfterFirst(job.cfg, group);
      }
    }
  }

  // ---------------------------------------------------------------- the run that uses everything

  /** What can go wrong on each turn short of the upstream: an unreadable body or a local error. */
  datatype Trouble = Trouble(readable: nat -> bool, local: nat -> bool)

  predicate Fine(w: Trouble, k: nat) {
    w.readable(k) && !w.local(k)
  }

  predicate AllFine(w: Trouble, from: nat, to: int) {
    forall k: nat :: from <= k < to ==> Fine(w, k)
  }

  lemma AllFineFrom(w: Trouble, from: nat, to: int)
    requires from < to
    ensures AllFine(w, from, to) <==> Fine(w, from) && AllFine(w, from + 1, to)
  {
  }

  /** An attempt that fails with a retryable upstream error if it gets that far. */
  function Failing(pick: Pick, bodyOk: bool, local: bool): Attempt {
    Attempt(true, pick, 1, bodyOk, false, Some(TaskError(0, local, 500, true)), 0, Context(false, false))
  }

  function GreedyScript(cfg: Config, group: nat, w: Trouble): nat -> Attempt {
    (k: nat) =>
      if k == 0 then Failing(Preset, w.readable(0), false)
      else Failing(Greedy(cfg, GreedyAt(cfg, Retry(1, false, group), k - 1)), w.readable(k), w.local(k))
  }

  /** The scripts with these troubles: bodies as said, and local errors only where said. */
  ghost predicate Troubled(script: nat -> Attempt, w: Trouble) {
    forall k: nat :: && script(k).bodyOk == w.readable(k)
                     && (script(k).submit.Some? && script(k).submit.value.localError ==> w.local(k))
  }

  lemma GreedyShape(cfg: Config, group: nat, w: Trouble)
    ensures var script := GreedyScript(cfg, group, w); ContextChannelFirst(script) && Troubled(script, w)
  {
    var script := GreedyScript(cfg, group, w);
    assert script(0) == Failing(Preset, w.readable(0), false);
    forall k: nat | k > 0 ensures !script(k).pick.Preset? && script(k).bodyOk == w.readable(k) &&
                                  (script(k).submit.Some? && script(k).submit.value.localError ==> w.local(k)) {
      var pick := Greedy(cfg, GreedyAt(cfg, Retry(1, false, group), k - 1));
      assert script(k) == Failing(pick, w.readable(k), w.local(k));
    }
  }

  lemma FailingTurn(job: Job, s: Loop, pick: Pick, bodyOk: bool, local: bool)
    requires !s.done && !job.locked
    ensures var s', r := Turn(job, Failing(pick, bodyOk, local), s), AfterPick(job.cfg, s.retry, pick);
            && s'.attempts == s.attempts + 1 && s'.retry == r
            && (!Succeeds(job.cfg, s.retry, pick) ==> s'.done && s'.upstream == s.upstream)
            && (Succeeds(job.cfg, s.retry, pick) && !(bodyOk && !local) ==>
                  s'.done && Silent(s') && s'.upstream == s.upstream)
            && (Succeeds(job.cfg, s.retry, pick) && bodyOk && !local ==>
                  |s'.upstream| == |s.upstream| + 1 && (!s'.done <==> job.cfg.retryTimes > r.count))
  {
  }

  /** A loop head of the greedy run. */
  ghost predicate OnGreedyPath(job: Job, group: nat, s: Loop) {
    && Live(job.cfg, s.retry) && job.cfg.retryTimes >= 1 && !s.done && !job.locked
    && (job.cfg.groups == 0 ==> s.retry.group == 0)
    && s.attempts >= 1 && s.retry == GreedyAt(job.cfg, Retry(1, false, group), s.attempts - 1)
  }

  /** One turn of it: the end, by one of three causes, or the next loop head. */
  lemma GreedyTurn(job: Job, group: nat, w: Trouble, s: Loop) returns (next: Loop)
    requires OnGreedyPath(job, group, s)
    ensures var script, calls := GreedyScript(job.cfg, group, w), CallsLeft(job.cfg, s.retry);
            var f := RunLoop(job, script, s);
            if calls == 0 then
              f.attempts == s.attempts + 1 && f.upstream == s.upstream && TurnsLeft(job.cfg, s.retry) == 1
            else if !Fine(w, s.attempts) then
              Silent(f) && f.upstream == s.upstream
            else if TurnsLeft(job.cfg, s.retry) == 1 then
              f.attempts == s.attempts + 1 && |f.upstream| == |s.upstream| + 1 && calls == 1
            else
              && OnGreedyPath(job, group, next) && f == RunLoop(job, script, next)
              && next.attempts == s.attempts + 1 && |next.upstream| == |s.upstream| + 1
              && TurnsLeft(job.cfg, next.retry) == TurnsLeft(job.cfg, s.retry) - 1
              && CallsLeft(job.cfg, next.retry) == calls - 1
  {
    var n, pick, script := s.attempts, Greedy(job.cfg, s.retry), GreedyScript(job.cfg, group, w);
    LeftBounds(job.cfg, s.retry);
    GreedySpends(job.cfg, s.retry);
    FailingTurn(job, s, pick, w.readable(n), w.local(n));
    assert script(n) == Failing(pick, w.readable(n), w.local(n));
    var t := Turn(job, script(n), s);
    next := t.(retry := Increase(t.retry));
    if CallsLeft(job.cfg, s.retry) == 0 || !Fine(w, n) || TurnsLeft(job.cfg, s.retry) == 1 {
      assert !(!t.done);
      assert RunLoop(job, script, s) == t;
    } else {
      assert !t.done;
      RetrySpends(job.cfg, s.retry, pick);
      assert next.retry == GreedyAt(job.cfg, Retry(1, false, group), n);
      assert RunLoop(job, script, s) == RunLoop(job, script, next);
    }
  }

  /** The greedy run from its second turn on: it uses up both limits, or ends silently at the first trouble. */
  lemma {:induction false} GreedyRun(job: Job, group: nat, w: Trouble, s: Loop)
    requires OnGreedyPath(job, group, s)
    ensures var f := RunLoop(job, GreedyScript(job.cfg, group, w), s);
            var all := AllFine(w, s.attempts, s.attempts + CallsLeft(job.cfg, s.retry));
            && |f.upstream| >= |s.upstream|
            && (all ==> f.attempts == s.attempts + TurnsLeft(job.cfg, s.retry))
            && (all ==> |f.upstream| == |s.upstream| + CallsLeft(job.cfg, s.retry))
            && (!all ==> Silent(f))
    decreases TurnsLeft(job.cfg, s.retry)
  {
    var n, calls := s.attempts, CallsLeft(job.cfg, s.retry);
    LeftBounds(job.cfg, s.retry);
    var next := GreedyTurn(job, group, w, s);
    if calls > 0 {
      AllFineFrom(w, n, n + calls);
      if Fine(w, n) && TurnsLeft(job.cfg, s.retry) > 1 {
        GreedyRun(job, group, w, next);
      }
    }
  }

  lemma GreedyFromStart(job: Job, group: nat, w: Trouble)
    requires group <= job.cfg.groups && job.cfg.retryTimes >= 0 && !job.locked && w.readable(0)
    ensures var script := GreedyScript(job.cfg, group, w); var f := RunLoop(job, script, Started(group));
            var all := AllFine(w, 1, TaskCalls(job, group));
            && ContextChannelFirst(script) && Troubled(script, w) && |f.upstream| >= 1
            && (all ==> f.attempts == TaskTurns(job, group) && |f.upstream| == TaskCalls(job, group))
            && (!all ==> Silent(f))
  {
    var start, script := Started(group), GreedyScript(job.cfg, group, w);
    GreedyShape(job.cfg, group, w);
    FailingTurn(job, start, Preset, true, false);
    assert script(0) == Failing(Preset, true, false);
    var t := Turn(job, script(0), start);
    if job.cfg.retryTimes == 0 {
      assert RunLoop(job, script, start) == t;
    } else {
      RetrySpends(job.cfg, start.retry, Preset);
      var s1 := t.(retry := Increase(t.retry));
      assert RunLoop(job, script, start) == RunLoop(job, script, s1);
      GreedyRun(job, group, w, s1);
      LimitsAfterFirst(job.cfg, group);
    }
  }

  /** THE EXACT LIMITS of a task that is not locked are those of a request: they hold in all runs that start with the
      channel in the context, and one run reaches both. */
  lemma LimitsExact(job: Job, group: nat)
    requires group <= job.cfg.groups && job.cfg.retryTimes >= 0 && !job.locked
    ensures forall script: nat -> Attempt :: ContextChannelFirst(script) ==>
              RunLoop(job, script, Started(group)).attempts <= TaskTurns(job, group)
    ensures forall script: nat -> Attempt :: ContextChannelFirst(script) ==>
              Calls(RunLoop(job, script, Started(group))) <= TaskCalls(job, group)
    ensures exists script: nat -> Attempt :: ContextChannelFirst(script) &&
              RunLoop(job, script, Started(group)).attempts == TaskTurns(job, group) &&
              |RunLoop(job, script, Started(group)).upstream| == TaskCalls(job, group)
  {
    forall script: nat -> Attempt | ContextChannelFirst(script)
      ensures RunLoop(job, script, Started(group)).attempts <= TaskTurns(job, group)
      ensures Calls(RunLoop(job, script, Started(group))) <= TaskCalls(job, group)
    {
      LimitsHold(job, group, script);
    }
    GreedyFromStart(job, group, Trouble(_ => true, _ => false));
  }

  // ---------------------------------------------------------------- failures that are not logged

  /** A failed task none of whose upstream errors reached the terminal log. */
  predicate Unlogged(f: Loop) {
    f.failure.Some? && f.upstream != [] && f.logged == []
  }

  /** WHEN EVERY FAILURE IS LOGGED. Whatever the channels do, no task with upstream errors fails without a terminal log,
      if and only if it is locked, or has no readable body to begin with, or every further turn that can
      submit has a readable body and no local error. */
  lemma EveryFailureLoggedIff(job: Job, group: nat, w: Trouble)
    requires group <= job.cfg.groups && job.cfg.retryTimes >= 0
    ensures (forall script: nat -> Attempt :: ContextChannelFirst(script) && Troubled(script, w) ==>
               !Unlogged(RunLoop(job, script, Started(group)))) <==>
            (w.readable(0) ==> AllFine(w, 1, TaskCalls(job, group)))
  {
    if w.readable(0) ==> AllFine(w, 1, TaskCalls(job, group)) {
      forall script: nat -> Attempt | ContextChannelFirst(script) && Troubled(script, w)
        ensures !Unlogged(RunLoop(job, script, Started(group)))
      {
        if Unlogged(RunLoop(job, script, Started(group))) {
          UnloggedTrouble(job, group, script, w);
        }
      }
    } else {
      var script := GreedyScript(job.cfg, group, w);
      GreedyFromStart(job, group, w);
      RunAccounts(job, script, Started(group));
      assert Unlogged(RunLoop(job, script, Started(group)));
    }
  }

  /** Behind an unlogged failure stands trouble on a turn that can submit. */
  lemma UnloggedTrouble(job: Job, group: nat, script: nat -> Attempt, w: Trouble)
    requires group <= job.cfg.groups && job.cfg.retryTimes >= 0 && ContextChannelFirst(script) && Troubled(script, w)
    requires Unlogged(RunLoop(job, script, Started(group)))
    ensures w.readable(0) && exists k: nat :: 1 <= k < TaskCalls(job, group) && !Fine(w, k)
  {
    var start := Started(group);
    var f := RunLoop(job, script, start);
    RunAccounts(job, script, start);
    LimitsHold(job, group, script);
    if job.locked {
      LockedLogs(job, group, script);
    } else {
      SilentEnds(job, script, start);
      FirstBodyRead(job, group, script);
      var k: nat := f.attempts - 1;
      assert !Fine(w, k);
    }
  }

  lemma FirstBodyRead(job: Job, group: nat, script: nat -> Attempt)
    requires group <= job.cfg.groups && job.cfg.retryTimes >= 0
    ensures RunLoop(job, script, Started(group)).upstream != [] ==> script(0).bodyOk
  {
    var start := Started(group);
    if !script(0).bodyOk {
      var t := Turn(job, script(0), start);
      assert t.done && t.upstream == [];
    }
  }

  lemma LockedLogs(job: Job, group: nat, script: nat -> Attempt)
    requires job.locked && group <= job.cfg.groups && job.cfg.retryTimes >= 0
    ensures !Unlogged(RunLoop(job, script, Started(group)))
  {
    var start, a := Started(group), script(0);
    TurnAccounts(job, a, start);
    assert Turn(job, a, start).done;
  }

  /** The first turn of a task whose channel in the context fails retryably. */
  predicate FailsFirst(a: Attempt) {
    && a.pick.Preset? && a.bodyOk && a.channelId > 0 && !a.ctx.specificChannel
    && a.submit.Some? && !a.submit.value.localError
  }

  /** Two turns: the first error stays unlogged when the body cannot be read again, and when the second submission fails
      on a local error; its verdict stands when the second submission succeeds. */
  lemma SecondTurn(cfg: Config, script: nat -> Attempt)
    requires cfg.groups == 0 && cfg.retryTimes >= 1 && FailsFirst(script(0)) && script(1).pick == Found(0)
    ensures var f, a, first := RunLoop(Job(cfg, false), script, Started(0)), script(1), script(0).submit.value;
            && (!a.bodyOk ==> f.failure == Some(NoBody) && f.upstream == [first] && Unlogged(f))
            && (a.bodyOk && a.submit.None? ==> f.failure == None && f.willRetry == Some(true))
            && (a.bodyOk && a.submit.Some? && a.submit.value.localError ==>
                  f.failure == Some(SubmitFailed(a.submit.value)) && f.upstream == [first] && Unlogged(f))
  {
    var job, start, a := Job(cfg, false), Started(0), script(0);
    var t := Turn(job, a, start);
    assert t == Submitted(job, a, start.(attempts := 1));
    assert !t.done && t.upstream == [a.submit.value] && t.willRetry == Some(true) && t.logged == [];
    RetrySpends(cfg, start.retry, Preset);
    var s1 := t.(retry := Increase(t.retry));
    assert RunLoop(job, script, start) == RunLoop(job, script, s1);
    var t1 := Turn(job, script(1), s1);
    assert t1 == Served(job, script(1), s1.(attempts := 2));
    if !script(1).bodyOk || script(1).submit.None? || script(1).submit.value.localError {
      assert t1.done;
    }
  }
}
