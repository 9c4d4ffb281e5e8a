/** The retry loop of Relay (controller/relay.go) with its terminal-error gate and deferred refund.
    Outcomes of channel selection, body storage and upstream calls are arbitrary scripts. */
module RelayRetry {
  import opened Basics
  import opened RetryBudget

  /** A HermesTokenError, with what the settings say about its codes. */
  datatype Error = Error(
    id: int, skipRetry: bool, channelError: bool, status: int, alwaysSkipCode: bool, statusRetryable: bool)

  /** The parts of the gin context the decision reads. */
  datatype Context = Context(specificChannel: bool, channelId: int, affinityEnabled: bool, affinitySkips: bool)

  datatype Reason =
    | NoError | SkipRetryError | BudgetExhausted | SpecificChannel | ChannelError | SelectedChannelUnavailable
    | AffinitySkip | SuccessfulStatus | InvalidStatus | AlwaysSkipCode | RetryableStatus | NotRetryableStatus

  /** shouldRetryWithReason. */
  function ShouldRetry(c: Context, err: Option<Error>, remaining: int): (bool, Reason) {
    if err.None? then (false, NoError)
    else if err.value.skipRetry then (false, SkipRetryError)
    else if remaining <= 0 then (false, BudgetExhausted)
    else if c.specificChannel then (false, SpecificChannel)
    else if err.value.channelError then (true, ChannelError)
    else if c.channelId > 0 then (true, SelectedChannelUnavailable)
    else if !c.affinityEnabled && c.affinitySkips then (false, AffinitySkip)
    else if 200 <= err.value.status < 300 then (false, SuccessfulStatus)
    else if err.value.status < 100 || err.value.status > 599 then (true, InvalidStatus)
    else if err.value.alwaysSkipCode then (false, AlwaysSkipCode)
    else if err.value.statusRetryable then (true, RetryableStatus)
    else (false, NotRetryableStatus)
  }

  /** retry_admin_info. */
  datatype AdminInfo = AdminInfo(index: int, remaining: int, willRetry: bool, reason: Reason)

  datatype Reply = Ok | FirstChunkTimeout(err: Error) | Upstream(err: Error)

  /** What one turn of the loop meets. */
  datatype Attempt = Attempt(pick: Pick, bodyOk: bool, reply: Reply, ctx: Context)

  /** How the request failed. */
  datatype Failure = BillingFailed | NoChannel | NoBody | UpstreamFailed(err: Error)

  datatype Exit = Running | Returned | Broke | CounterRanOut

  datatype Loop = Loop(
    retry: Retry,
    failure: Option<Failure>,      // hermesTokenError
    lastError: Option<Error>,      // relayInfo.LastError
    admin: Option<AdminInfo>,      // the context key
    attempts: nat,                 // turns taken
    upstream: seq<Error>,          // errors upstream calls ended with
    warned: seq<Error>,            // processChannelError calls that stopped at the gate
    logged: seq<Error>,            // processChannelError calls that passed it
    exit: Exit)

  /** processChannelError up to the gate. */
  function Processed(s: Loop, err: Error): Loop {
    if s.admin.Some? && s.admin.value.willRetry then s.(warned := s.warned + [err]) else s.(logged := s.logged + [err])
  }

  function Failed(s: Loop, cfg: Config, a: Attempt, err: Error): Loop {
    var remaining := cfg.retryTimes - s.retry.count;
    var (will, reason) := ShouldRetry(a.ctx, Some(err), remaining);
    var s := s.(failure := Some(UpstreamFailed(err)), lastError := Some(err), upstream := s.upstream + [err],
                admin := Some(AdminInfo(s.retry.count, remaining, will, reason)));
    Processed(s, err).(exit := if will then Running else Broke)
  }

  function Exhausted(s: Loop): Loop {
    if s.lastError.Some? then
      Processed(s.(admin := Some(AdminInfo(s.retry.count, 0, false, SelectedChannelUnavailable))), s.lastError.value)
    else s
  }

  /** The turn that finds no channel. */
  function GaveUp(s: Loop): Loop {
    Exhausted(s).(failure := Some(NoChannel), exit := Broke)
  }

  /** The turn once a channel is set up. */
  function Served(cfg: Config, a: Attempt, s: Loop): Loop {
    if !a.bodyOk then s.(failure := Some(NoBody), exit := Broke)
    else
      match a.reply
      case Ok => s.(failure := None, lastError := None, exit := Returned)
      case FirstChunkTimeout(err) => Failed(s, cfg, a, err)
      case Upstream(err) => Failed(s, cfg, a, err)
  }

  /** One turn of the loop body. */
  function Turn(cfg: Config, a: Attempt, s: Loop): Loop {
    var s' := s.(attempts := s.attempts + 1, retry := AfterPick(cfg, s.retry, a.pick));
    if Succeeds(cfg, s.retry, a.pick) then Served(cfg, a, s') else GaveUp(s')
  }

  /** The whole loop from a live state, over a script of attempts. */
  function RunLoop(cfg: Config, script: nat -> Attempt, s: Loop): Loop
    requires Live(cfg, s.retry)
    decreases Budget(cfg, s.retry)
  {
    var a := script(s.attempts);
    var s' := Turn(cfg, a, s);
    if s'.exit != Running then s'
    else
      RetrySpends(cfg, s.retry, a.pick);
      RunLoop(cfg, script, s'.(retry := Increase(s'.retry)))
  }

  // ---------------------------------------------------------------- Relay

  datatype Setup = Setup(freeModel: bool, preConsumeOk: bool, admin: Option<AdminInfo>, group: nat)

  datatype Result = Result(loop: Loop, refunds: nat)

  function Started(setup: Setup, cfg: Config): Loop {
    Loop(Retry(0, false, setup.group), None, None, setup.admin, 0, [], [], [], Running)
  }

  /** The request as a value: billing, loop, deferred refund. */
  function Relayed(cfg: Config, setup: Setup, script: nat -> Attempt): Result
    requires setup.group <= cfg.groups
  {
    var start := Started(setup, cfg);
    if !setup.freeModel && !setup.preConsumeOk then Result(start.(failure := Some(BillingFailed), exit := Returned), 0)
    else
      var final := if cfg.retryTimes < 0 then start.(exit := CounterRanOut) else RunLoop(cfg, script, start);
      Result(final, if final.failure.Some? && !setup.freeModel then 1 else 0)
  }

  method Relay(cfg: Config, setup: Setup, script: nat -> Attempt) returns (r: Result)
    requires setup.group <= cfg.groups
    ensures r == Relayed(cfg, setup, script)
  {
    ghost var start := Started(setup, cfg);
    var now := Started(setup, cfg);
    var billing, refunds := false, 0;
    if !setup.freeModel {
      if !setup.preConsumeOk {
        return Result(now.(failure := Some(BillingFailed), exit := Returned), 0);
      }
      billing := true;
    }
    while now.exit == Running && now.retry.count <= cfg.retryTimes
      invariant cfg.retryTimes < 0 ==> now == start
      invariant cfg.retryTimes >= 0 && now.exit == Running ==>
                  Live(cfg, now.retry) && RunLoop(cfg, script, now) == RunLoop(cfg, script, start)
      invariant cfg.retryTimes >= 0 && now.exit != Running ==> now == RunLoop(cfg, script, start)
      decreases now.exit == Running, if Live(cfg, now.retry) then Budget(cfg, now.retry) else 0
    {
      var a := script(now.attempts);
      ghost var before := now;
      now := TakeTurn(cfg, a, now);
      if now.exit == Running {
        RunningRetries(cfg, a, before);
        RetrySpends(cfg, before.retry, a.pick);
        now := now.(retry := Increase(now.retry));
      }
    }
    if now.exit == Running {
      now := now.(exit := CounterRanOut);
    }
    if now.failure.Some? && billing {
      refunds := refunds + 1;
    }
    r := Result(now, refunds);
  }

  /** A turn that lets the loop go on chose a channel and left something of the counter. */
  lemma RunningRetries(cfg: Config, a: Attempt, s: Loop)
    requires Turn(cfg, a, s).exit == Running
    ensures Succeeds(cfg, s.retry, a.pick) && Turn(cfg, a, s).retry == AfterPick(cfg, s.retry, a.pick)
    ensures cfg.retryTimes - AfterPick(cfg, s.retry, a.pick).count > 0
  {
  }

  /** The loop body. */
  method TakeTurn(cfg: Config, a: Attempt, before: Loop) returns (s: Loop)
    ensures s == Turn(cfg, a, before)
  {
    var retry, failure, lastError, admin := before.retry, before.failure, before.lastError, before.admin;
    var upstream, warned, logged, exit := before.upstream, before.warned, before.logged, before.exit;
    retry := AfterPick(cfg, before.retry, a.pick);
    if !Succeeds(cfg, before.retry, a.pick) {
      if lastError.Some? {
        admin := Some(AdminInfo(retry.count, 0, false, SelectedChannelUnavailable));
        warned, logged := ProcessChannelError(admin, warned, logged, lastError.value);
      }
      failure, exit := Some(NoChannel), Broke;
    } else if !a.bodyOk {
      failure, exit := Some(NoBody), Broke;
    } else if a.reply.Ok? {
      failure, lastError, exit := None, None, Returned;
    } else {
      var err := a.reply.err;
      failure, lastError := Some(UpstreamFailed(err)), Some(err);
      upstream := upstream + [err];
      var remaining := cfg.retryTimes - retry.count;
      var (willRetry, reason) := ShouldRetry(a.ctx, lastError, remaining);
      admin := Some(AdminInfo(retry.count, remaining, willRetry, reason));
      warned, logged := ProcessChannelError(admin, warned, logged, err);
      exit := if willRetry then Running else Broke;
    }
    s := Loop(retry, failure, lastError, admin, before.attempts + 1, upstream, warned, logged, exit);
  }

  /** processChannelError: warn while a retry follows, otherwise write the terminal error log. */
  method ProcessChannelError(admin: Option<AdminInfo>, warned: seq<Error>, logged: seq<Error>, err: Error)
    returns (warned': seq<Error>, logged': seq<Error>)
    ensures var gate := admin.Some? && admin.value.willRetry;
            warned' == (if gate then warned + [err] else warned) && logged' == (if gate then logged else logged + [err])
  {
    warned', logged' := warned, logged;
    if admin.Some? && admin.value.willRetry {
      warned' := warned + [err];
      return;
    }
    logged' := logged + [err];
  }

  // ---------------------------------------------------------------- what a run does

  /** Between turns: everything so far was a warned, retryable upstream error. */
  ghost predicate AllWarned(s: Loop) {
    && s.exit == Running && s.logged == [] && s.warned == s.upstream
    && s.lastError == (if s.upstream == [] then None else Some(s.upstream[|s.upstream| - 1]))
    && s.failure == (if s.upstream == [] then None else Some(UpstreamFailed(s.upstream[|s.upstream| - 1])))
    && (s.upstream != [] ==> Verdict(s, true))
  }

  /** The verdict left in the context. */
  predicate Verdict(s: Loop, will: bool) {
    s.admin.Some? && s.admin.value.willRetry == will
  }

  /** At the end: what was logged and warned, and the verdict left standing, by how the request ended. */
  ghost predicate Accounted(s: Loop) {
    && (s.exit == Returned || s.exit == Broke)
    && (s.exit == Returned <==> s.failure == None)
    && (s.failure == None || s.failure == Some(NoBody) ==>
          s.logged == [] && s.warned == s.upstream && (s.upstream != [] ==> Verdict(s, true)))
    && (s.failure == Some(NoChannel) ==>
          && s.warned == s.upstream && s.logged == (if s.upstream == [] then [] else [s.upstream[|s.upstream| - 1]])
          && (s.upstream != [] ==> Verdict(s, false)))
    && (s.failure.Some? && s.failure.value.UpstreamFailed? ==>
          s.upstream == s.warned + s.logged && s.logged == [s.failure.value.err] && Verdict(s, false))
    && s.failure != Some(BillingFailed)
  }

  ghost predicate TurnedWell(s: Loop, s': Loop) {
    s'.attempts == s.attempts && if s'.exit == Running then AllWarned(s') else Accounted(s')
  }

  lemma TurnAccounts(cfg: Config, a: Attempt, s: Loop)
    requires AllWarned(s)
    ensures TurnedWell(s.(attempts := s.attempts + 1), Turn(cfg, a, s))
  {
    var s1 := s.(attempts := s.attempts + 1, retry := AfterPick(cfg, s.retry, a.pick));
    if Succeeds(cfg, s.retry, a.pick) {
      assert Turn(cfg, a, s) == Served(cfg, a, s1);
      ServedAccounts(cfg, a, s1);
    } else {
      assert Turn(cfg, a, s) == GaveUp(s1);
      GaveUpAccounts(s1);
    }
  }

  lemma GaveUpAccounts(s: Loop)
    requires AllWarned(s)
    ensures TurnedWell(s, GaveUp(s))
  {
  }

  lemma ServedAccounts(cfg: Config, a: Attempt, s: Loop)
    requires AllWarned(s)
    ensures TurnedWell(s, Served(cfg, a, s))
  {
    if a.bodyOk && !a.reply.Ok? {
      assert Served(cfg, a, s) == Failed(s, cfg, a, a.reply.err);
      FailedAccounts(cfg, a, s, a.reply.err);
    }
  }

  lemma FailedAccounts(cfg: Config, a: Attempt, s: Loop, err: Error)
    requires AllWarned(s)
    ensures TurnedWell(s, Failed(s, cfg, a, err))
  {
  }

  lemma {:induction false} RunAccounts(cfg: Config, script: nat -> Attempt, s: Loop)
    requires Live(cfg, s.retry) && AllWarned(s)
    ensures var f := RunLoop(cfg, script, s);
            Accounted(f) && f.attempts <= s.attempts + Budget(cfg, s.retry) + 1
    decreases Budget(cfg, s.retry)
  {
    var a := script(s.attempts);
    var s' := Turn(cfg, a, s);
    TurnAccounts(cfg, a, s);
    if s'.exit == Running {
      RetrySpends(cfg, s.retry, a.pick);
      RunAccounts(cfg, script, s'.(retry := Increase(s'.retry)));
    }
  }

  /** EVERY RELAY RUN. A request that succeeds never passes the terminal gate; one that ends on an upstream
      error passes it exactly once, with that error; channel exhaustion passes it once, with the last
      upstream error, if there was one; every other upstream error was only warned about. The loop ends
      by its counter only when RetryTimes is negative, so never after a "will retry" verdict. It takes at
      most RetryTimes+1 turns, times one more than the groups an auto token has left. The refund runs
      once iff quota was pre-consumed and the request failed after that. */
  lemma RelayGuarantees(cfg: Config, setup: Setup, script: nat -> Attempt)
    requires setup.group <= cfg.groups
    ensures var r := Relayed(cfg, setup, script);
            var billed := setup.freeModel || setup.preConsumeOk;
            && (r.refunds == if !setup.freeModel && setup.preConsumeOk && r.loop.failure.Some? then 1 else 0)
            && (!billed ==> r.loop.failure == Some(BillingFailed) && r.loop.attempts == 0 && r.loop.logged == [])
            && (billed && cfg.retryTimes >= 0 ==>
                  Accounted(r.loop) && r.loop.attempts <= (cfg.groups - setup.group + 1) * (cfg.retryTimes + 1))
            && (billed ==> (r.loop.exit == CounterRanOut <==> cfg.retryTimes < 0))
  {
    if (setup.freeModel || setup.preConsumeOk) && cfg.retryTimes >= 0 {
      RunAccounts(cfg, script, Started(setup, cfg));
      FullBudget(cfg, setup.group);
    }
  }

  // ---------------------------------------------------------------- the run, written out

  /** An error worth a retry: not marked to be skipped, not on a pinned channel, and a channel error, or one while a
      channel is selected, or else one that no channel affinity forbids to retry and whose status is out of
      range, or retryable without its code always being skipped. */
  predicate WorthRetry(c: Context, err: Error) {
    && !err.skipRetry && !c.specificChannel
    && (|| err.channelError || c.channelId > 0
        || (&& (c.affinityEnabled || !c.affinitySkips)
            && !(200 <= err.status <= 299)
            && (!(100 <= err.status <= 599) || (err.statusRetryable && !err.alwaysSkipCode))))
  }

  lemma VerdictWrittenOut(c: Context, err: Error, remaining: int)
    ensures ShouldRetry(c, Some(err), remaining).0 <==> remaining > 0 && WorthRetry(c, err)
    ensures !ShouldRetry(c, None, remaining).0
  {
  }

  /** The reason given fits the error. */
  lemma ReasonFits(c: Context, err: Error, remaining: int)
    ensures match ShouldRetry(c, Some(err), remaining).1
            case NoError => false
            case SkipRetryError => err.skipRetry
            case BudgetExhausted => remaining <= 0
            case SpecificChannel => c.specificChannel
            case ChannelError => err.channelError
            case SelectedChannelUnavailable => c.channelId > 0
            case AffinitySkip => c.affinitySkips && !c.affinityEnabled
            case SuccessfulStatus => 200 <= err.status <= 299
            case InvalidStatus => !(100 <= err.status <= 599)
            case AlwaysSkipCode => err.alwaysSkipCode
            case RetryableStatus => err.statusRetryable
            case NotRetryableStatus => !err.statusRetryable
  {
  }

  function Picks(script: nat -> Attempt): nat -> Pick {
    (k: nat) => script(k).pick
  }

  /** Turn k is followed by another. */
  predicate GoesOn(cfg: Config, script: nat -> Attempt, group: nat, k: nat) {
    && GetsChannel(cfg, Picks(script), group, k) && script(k).bodyOk && !script(k).reply.Ok?
    && LeftAt(cfg, Picks(script), group, k) > 0 && WorthRetry(script(k).ctx, script(k).reply.err)
  }

  /** How a request ends whose last turn is k. */
  function EndsWith(cfg: Config, script: nat -> Attempt, group: nat, k: nat): Option<Failure> {
    if !GetsChannel(cfg, Picks(script), group, k) then Some(NoChannel)
    else if !script(k).bodyOk then Some(NoBody)
    else if script(k).reply.Ok? then None
    else Some(UpstreamFailed(script(k).reply.err))
  }

  ghost predicate ErrorsOf(upstream: seq<Error>, script: nat -> Attempt) {
    forall k :: 0 <= k < |upstream| ==> !script(k).reply.Ok? && upstream[k] == script(k).reply.err
  }

  /** From turn m up to n, every turn but the last goes on. */
  ghost predicate TurnsGoOn(cfg: Config, script: nat -> Attempt, group: nat, m: nat, n: nat) {
    m < n && forall k: nat :: m <= k < n ==> (k + 1 < n <==> GoesOn(cfg, script, group, k))
  }

  lemma TurnsGoOnFrom(cfg: Config, script: nat -> Attempt, group: nat, m: nat, n: nat)
    requires GoesOn(cfg, script, group, m) && TurnsGoOn(cfg, script, group, m + 1, n)
    ensures TurnsGoOn(cfg, script, group, m, n)
  {
  }

  /** The end of a run: its last turn says how it ended, and its upstream errors are those of its turns. */
  ghost predicate EndsAsScripted(cfg: Config, script: nat -> Attempt, group: nat, f: Loop) {
    && f.attempts >= 1
    && f.failure == EndsWith(cfg, script, group, f.attempts - 1)
    && ErrorsOf(f.upstream, script)
    && |f.upstream| == if f.failure.Some? && f.failure.value.UpstreamFailed? then f.attempts else f.attempts - 1
  }

  /** A loop head reached by the script. */
  ghost predicate OnScript(cfg: Config, script: nat -> Attempt, group: nat, s: Loop) {
    && s.retry == HeadAt(cfg, Picks(script), group, s.attempts) && s.exit == Running
    && |s.upstream| == s.attempts && ErrorsOf(s.upstream, script)
  }

  lemma TurnFollows(cfg: Config, script: nat -> Attempt, group: nat, s: Loop)
    requires OnScript(cfg, script, group, s)
    ensures var s' := Turn(cfg, script(s.attempts), s);
            && s'.attempts == s.attempts + 1
            && (s'.exit == Running <==> GoesOn(cfg, script, group, s.attempts))
            && EndsAsScripted(cfg, script, group, s')
            && (s'.exit == Running ==> OnScript(cfg, script, group, s'.(retry := Increase(s'.retry))))
  {
    var k, a := s.attempts, script(s.attempts);
    GetsChannelIff(cfg, Picks(script), group, k);
    if Succeeds(cfg, s.retry, a.pick) && a.bodyOk && !a.reply.Ok? {
      VerdictWrittenOut(a.ctx, a.reply.err, LeftAt(cfg, Picks(script), group, k));
      assert Turn(cfg, a, s).upstream == s.upstream + [a.reply.err];
    } else {
      assert Turn(cfg, a, s).upstream == s.upstream;
    }
  }

  lemma {:induction false} RunFollows(cfg: Config, script: nat -> Attempt, group: nat, s: Loop)
    requires Live(cfg, s.retry) && OnScript(cfg, script, group, s)
    ensures var f := RunLoop(cfg, script, s);
            TurnsGoOn(cfg, script, group, s.attempts, f.attempts) && EndsAsScripted(cfg, script, group, f)
    decreases Budget(cfg, s.retry)
  {
    var a := script(s.attempts);
    var s' := Turn(cfg, a, s);
    TurnFollows(cfg, script, group, s);
    if s'.exit == Running {
      RunningRetries(cfg, a, s);
      RetrySpends(cfg, s.retry, a.pick);
      var next := s'.(retry := Increase(s'.retry));
      RunFollows(cfg, script, group, next);
      TurnsGoOnFrom(cfg, script, group, s.attempts, RunLoop(cfg, script, next).attempts);
    }
  }

  /** THE RUN, WRITTEN OUT. Which turns a request takes, how it ends and which upstream errors it met follow from what
      its turns meet: a turn is followed by another exactly when it got a channel and a body, the upstream
      call failed with an error worth a retry, and something of the counter was left. */
  lemma RunWrittenOut(cfg: Config, setup: Setup, script: nat -> Attempt)
    requires setup.group <= cfg.groups && cfg.retryTimes >= 0 && (setup.freeModel || setup.preConsumeOk)
    ensures var f := Relayed(cfg, setup, script).loop;
            TurnsGoOn(cfg, script, setup.group, 0, f.attempts) && EndsAsScripted(cfg, script, setup.group, f)
  {
    RunFollows(cfg, script, setup.group, Started(setup, cfg));
  }

  /** A request pinned to a channel takes one turn. */
  lemma PinnedTakesOneTurn(cfg: Config, setup: Setup, script: nat -> Attempt)
    requires setup.group <= cfg.groups && cfg.retryTimes >= 0 && (setup.freeModel || setup.preConsumeOk)
    requires script(0).ctx.specificChannel
    ensures Relayed(cfg, setup, script).loop.attempts == 1
  {
    RunWrittenOut(cfg, setup, script);
    assert !GoesOn(cfg, script, setup.group, 0);
  }

  /** A turn whose error is marked to skip retries is the last; and without groups a turn that fails on a channel error,
      or while a channel is selected, is followed by another as long as RetryTimes allows. */
  lemma RetryLaws(cfg: Config, setup: Setup, script: nat -> Attempt, k: nat)
    requires setup.group <= cfg.groups && cfg.retryTimes >= 0 && (setup.freeModel || setup.preConsumeOk)
    requires k < Relayed(cfg, setup, script).loop.attempts && !script(k).reply.Ok?
    ensures var n, a := Relayed(cfg, setup, script).loop.attempts, script(k);
            && (a.reply.err.skipRetry || a.ctx.specificChannel ==> k == n - 1)
            && (cfg.groups == 0 && (a.pick.Preset? || a.pick.Found?) && a.bodyOk && !a.reply.err.skipRetry &&
                !a.ctx.specificChannel && (a.reply.err.channelError || a.ctx.channelId > 0) ==>
                  (k < n - 1 <==> k < cfg.retryTimes))
  {
    RunWrittenOut(cfg, setup, script);
    assert k + 1 < Relayed(cfg, setup, script).loop.attempts <==> GoesOn(cfg, script, setup.group, k);
    if cfg.groups == 0 {
      PlainCounter(cfg, Picks(script), k);
    }
  }

  /** The retry info left standing when a request fails: after an upstream error it holds the counter and what was left
      of it, and after running out of channels it says that nothing remains because the channel is unavailable. */
  ghost predicate InfoFits(cfg: Config, f: Loop) {
    && (f.failure.Some? && f.failure.value.UpstreamFailed? ==>
          && f.admin.Some? && f.admin.value.index == f.retry.count
          && f.admin.value.remaining == cfg.retryTimes - f.retry.count)
    && (f.failure == Some(NoChannel) && f.upstream != [] ==>
          f.admin == Some(AdminInfo(f.retry.count, 0, false, SelectedChannelUnavailable)))
  }

  lemma {:induction false} RunInfo(cfg: Config, script: nat -> Attempt, s: Loop)
    requires Live(cfg, s.retry) && (s.upstream != [] ==> s.lastError.Some?)
    requires cfg.groups == 0 ==> s.retry.count == s.attempts
    ensures var f := RunLoop(cfg, script, s);
            InfoFits(cfg, f) && (cfg.groups == 0 ==> f.retry.count == f.attempts - 1)
    decreases Budget(cfg, s.retry)
  {
    var a := script(s.attempts);
    var s' := Turn(cfg, a, s);
    if s'.exit == Running {
      RunningRetries(cfg, a, s);
      RetrySpends(cfg, s.retry, a.pick);
      RunInfo(cfg, script, s'.(retry := Increase(s'.retry)));
    }
  }

  /** On every run; and without groups the counter is the number of earlier turns. */
  lemma InfoLeft(cfg: Config, setup: Setup, script: nat -> Attempt)
    requires setup.group <= cfg.groups && cfg.retryTimes >= 0 && (setup.freeModel || setup.preConsumeOk)
    ensures var f := Relayed(cfg, setup, script).loop;
            InfoFits(cfg, f) && (cfg.groups == 0 ==> f.retry.count == f.attempts - 1)
  {
    RunInfo(cfg, script, Started(setup, cfg));
  }

  // ---------------------------------------------------------------- the exact limits

  /** What getChannel can do: it takes the channel in the context on the first turn, when no handler has filled in
      the channel meta data yet, and selects one on every later turn. */
  ghost predicate ContextChannelFirst(script: nat -> Attempt) {
    script(0).pick.Preset? && forall k: nat :: k > 0 ==> !script(k).pick.Preset?
  }

  /** Turns that got a channel: all but the one that found none. */
  function Calls(f: Loop): int {
    if f.failure == Some(NoChannel) then f.attempts - 1 else f.attempts
  }

  /** A turn that ends the loop got a channel, or says so. */
  lemma LastTurn(cfg: Config, a: Attempt, s: Loop)
    requires s.exit == Running
    ensures var s' := Turn(cfg, a, s);
            s'.attempts == s.attempts + 1 &&
                (s'.exit != Running ==> (s'.failure == Some(NoChannel) <==> !Succeeds(cfg, s.retry, a.pick)))
  {
  }

  lemma {:induction false} WithinLimits(cfg: Config, script: nat -> Attempt, s: Loop)
    requires Live(cfg, s.retry) && cfg.retryTimes >= 1 && s.exit == Running
    requires forall k: nat :: k >= s.attempts ==> !script(k).pick.Preset?
    ensures var f := RunLoop(cfg, script, s);
            f.attempts <= s.attempts + TurnsLeft(cfg, s.retry) && Calls(f) <= s.attempts + CallsLeft(cfg, s.retry)
    decreases Budget(cfg, s.retry)
  {
    var a := script(s.attempts);
    var s' := Turn(cfg, a, s);
    LastTurn(cfg, a, s);
    LeftBounds(cfg, s.retry);
    if s'.exit == Running {
      RunningRetries(cfg, a, s);
      RetrySpends(cfg, s.retry, a.pick);
      PickSpends(cfg, s.retry, a.pick);
      WithinLimits(cfg, script, s'.(retry := Increase(s'.retry)));
    }
  }

  /** No request that starts with the channel in the context takes more turns or makes more calls. */
  lemma LimitsHold(cfg: Config, setup: Setup, script: nat -> Attempt)
    requires setup.group <= cfg.groups && cfg.retryTimes >= 0 && (setup.freeModel || setup.preConsumeOk)
    requires ContextChannelFirst(script)
    ensures var f := Relayed(cfg, setup, script).loop;
            f.attempts <= MaxTurns(cfg, setup.group) && Calls(f) <= MaxCalls(cfg, setup.group)
  {
    var start, a := Started(setup, cfg), script(0);
    var s' := Turn(cfg, a, start);
    LastTurn(cfg, a, start);
    if s'.exit == Running {
      RunningRetries(cfg, a, start);
      RetrySpends(cfg, start.retry, a.pick);
      WithinLimits(cfg, script, s'.(retry := Increase(s'.retry)));
      LimitsAfterFirst(cfg, setup.group);
    } else {
      LimitsPositive(cfg, setup.group);
    }
  }

  /** An attempt that fails with a retryable channel error if it gets as far as the upstream. */
  function Failing(pick: Pick, bodyOk: bool): Attempt {
    Attempt(pick, bodyOk, Upstream(Error(0, false, true, 500, false, true)), Context(false, 0, false, false))
  }

  /** The run that uses everything, with bodies that can be read or not. */
  function GreedyScript(cfg: Config, group: nat, readable: nat -> bool): nat -> Attempt {
    (k: nat) =>
      var pick := if k == 0 then Preset else Greedy(cfg, GreedyAt(cfg, Retry(1, false, group), k - 1));
      Failing(pick, readable(k))
  }

  lemma FailingTurn(cfg: Config, s: Loop, pick: Pick, bodyOk: bool)
    requires s.exit == Running
    ensures var s', r := Turn(cfg, Failing(pick, bodyOk), s), AfterPick(cfg, s.retry, pick);
            && s'.attempts == s.attempts + 1 && s'.retry == r
            && (!Succeeds(cfg, s.retry, pick) ==>
                  s'.exit == Broke && s'.failure == Some(NoChannel) && s'.upstream == s.upstream)
            && (Succeeds(cfg, s.retry, pick) && !bodyOk ==>
                  s'.exit == Broke && s'.failure == Some(NoBody) && s'.upstream == s.upstream)
            && (Succeeds(cfg, s.retry, pick) && bodyOk ==>
                  && |s'.upstream| == |s.upstream| + 1 && (s'.exit == Running <==> cfg.retryTimes > r.count)
                  && s'.failure.Some? && s'.failure.value.UpstreamFailed?)
  {
  }

  predicate AllReadable(readable: nat -> bool, from: nat, to: int) {
    forall k: nat :: from <= k < to ==> readable(k)
  }

  lemma AllReadableFrom(readable: nat -> bool, from: nat, to: int)
    requires from < to
    ensures AllReadable(readable, from, to) <==> readable(from) && AllReadable(readable, from + 1, to)
  {
  }

  /** A loop head of the greedy run. */
  ghost predicate OnGreedyPath(cfg: Config, group: nat, s: Loop) {
    && Live(cfg, s.retry) && cfg.retryTimes >= 1 && s.exit == Running && (cfg.groups == 0 ==> s.retry.group == 0)
    && s.attempts >= 1 && s.retry == GreedyAt(cfg, Retry(1, false, group), s.attempts - 1)
  }

  /** One turn of it: the end, by one of three causes, or the next loop head. */
  lemma GreedyTurn(cfg: Config, group: nat, readable: nat -> bool, s: Loop) returns (next: Loop)
    requires OnGreedyPath(cfg, group, s)
    ensures var f, calls := RunLoop(cfg, GreedyScript(cfg, group, readable), s), CallsLeft(cfg, s.retry);
            if calls == 0 then
              f.attempts == s.attempts + 1 && f.upstream == s.upstream && TurnsLeft(cfg, s.retry) == 1
            else if !readable(s.attempts) then
              f.failure == Some(NoBody) && f.upstream == s.upstream
            else if TurnsLeft(cfg, s.retry) == 1 then
              f.attempts == s.attempts + 1 && |f.upstream| == |s.upstream| + 1 && calls == 1
            else
              && OnGreedyPath(cfg, group, next) && f == RunLoop(cfg, GreedyScript(cfg, group, readable), next)
              && next.attempts == s.attempts + 1 && |next.upstream| == |s.upstream| + 1
              && TurnsLeft(cfg, next.retry) == TurnsLeft(cfg, s.retry) - 1 && CallsLeft(cfg, next.retry) == calls - 1
  {
    var n, pick, script := s.attempts, Greedy(cfg, s.retry), GreedyScript(cfg, group, readable);
    LeftBounds(cfg, s.retry);
    GreedySpends(cfg, s.retry);
    FailingTurn(cfg, s, pick, readable(n));
    assert script(n) == Failing(pick, readable(n));
    var t := Turn(cfg, script(n), s);
    next := t.(retry := Increase(t.retry));
    if CallsLeft(cfg, s.retry) == 0 || !readable(n) || TurnsLeft(cfg, s.retry) == 1 {
      assert !(t.exit == Running);
      assert RunLoop(cfg, script, s) == t;
    } else {
      assert t.exit == Running;
      RetrySpends(cfg, s.retry, pick);
      assert next.retry == GreedyAt(cfg, Retry(1, false, group), n);
      assert RunLoop(cfg, script, s) == RunLoop(cfg, script, next);
    }
  }

  /** The greedy run from its second turn on: it uses up both limits, or stops at the first unreadable body. */
  lemma {:induction false} GreedyRun(cfg: Config, group: nat, readable: nat -> bool, s: Loop)
    requires OnGreedyPath(cfg, group, s)
    ensures var f := RunLoop(cfg, GreedyScript(cfg, group, readable), s);
            var all := AllReadable(readable, s.attempts, s.attempts + CallsLeft(cfg, s.retry));
            && |f.upstream| >= |s.upstream|
            && (all ==> f.attempts == s.attempts + TurnsLeft(cfg, s.retry))
            && (all ==> |f.upstream| == |s.upstream| + CallsLeft(cfg, s.retry))
            && (!all ==> f.failure == Some(NoBody))
    decreases TurnsLeft(cfg, s.retry)
  {
    var n, calls := s.attempts, CallsLeft(cfg, s.retry);
    LeftBounds(cfg, s.retry);
    var next := GreedyTurn(cfg, group, readable, s);
    if calls > 0 {
      AllReadableFrom(readable, n, n + calls);
      if readable(n) && TurnsLeft(cfg, s.retry) > 1 {
        GreedyRun(cfg, group, readable, next);
      }
    }
  }

  lemma GreedyShape(cfg: Config, group: nat, readable: nat -> bool)
    ensures var script := GreedyScript(cfg, group, readable); ContextChannelFirst(script) && BodiesAre(script, readable)
  {
    var script := GreedyScript(cfg, group, readable);
    assert script(0) == Failing(Preset, readable(0));
    forall k: nat | k > 0 ensures !script(k).pick.Preset? && script(k).bodyOk == readable(k) {
      var pick := Greedy(cfg, GreedyAt(cfg, Retry(1, false, group), k - 1));
      assert script(k) == Failing(pick, readable(k));
    }
  }

  lemma GreedyFromStart(cfg: Config, setup: Setup, readable: nat -> bool)
    requires setup.group <= cfg.groups && cfg.retryTimes >= 0 && (setup.freeModel || setup.preConsumeOk)
    requires readable(0)
    ensures var script := GreedyScript(cfg, setup.group, readable); var f := Relayed(cfg, setup, script).loop;
            && ContextChannelFirst(script) && BodiesAre(script, readable) && |f.upstream| >= 1
            && (AllReadable(readable, 1, MaxCalls(cfg, setup.group)) ==>
                  f.attempts == MaxTurns(cfg, setup.group) && |f.upstream| == MaxCalls(cfg, setup.group))
            && (!AllReadable(readable, 1, MaxCalls(cfg, setup.group)) ==> f.failure == Some(NoBody))
  {
    var start, script := Started(setup, cfg), GreedyScript(cfg, setup.group, readable);
    FailingTurn(cfg, start, Preset, true);
    assert script(0) == Failing(Preset, true);
    GreedyShape(cfg, setup.group, readable);
    var t := Turn(cfg, script(0), start);
    if cfg.retryTimes == 0 {
      assert RunLoop(cfg, script, start) == t;
    } else {
      RetrySpends(cfg, start.retry, Preset);
      var s1 := t.(retry := Increase(t.retry));
      assert RunLoop(cfg, script, start) == RunLoop(cfg, script, s1);
      GreedyRun(cfg, setup.group, readable, s1);
      LimitsAfterFirst(cfg, setup.group);
    }
  }

  /** THE EXACT LIMITS. Over all requests that start with the channel in the context, MaxTurns and MaxCalls bound the
      turns and the upstream calls, and one and the same run reaches both. */
  lemma LimitsExact(cfg: Config, setup: Setup)
    requires setup.group <= cfg.groups && cfg.retryTimes >= 0 && (setup.freeModel || setup.preConsumeOk)
    ensures forall script: nat -> Attempt :: ContextChannelFirst(script) ==>
              Relayed(cfg, setup, script).loop.attempts <= MaxTurns(cfg, setup.group)
    ensures forall script: nat -> Attempt :: ContextChannelFirst(script) ==>
              Calls(Relayed(cfg, setup, script).loop) <= MaxCalls(cfg, setup.group)
    ensures exists script: nat -> Attempt :: ContextChannelFirst(script) &&
              Relayed(cfg, setup, script).loop.attempts == MaxTurns(cfg, setup.group) &&
              |Relayed(cfg, setup, script).loop.upstream| == MaxCalls(cfg, setup.group)
  {
    forall script: nat -> Attempt | ContextChannelFirst(script)
      ensures Relayed(cfg, setup, script).loop.attempts <= MaxTurns(cfg, setup.group)
      ensures Calls(Relayed(cfg, setup, script).loop) <= MaxCalls(cfg, setup.group)
    {
      LimitsHold(cfg, setup, script);
    }
    GreedyFromStart(cfg, setup, _ => true);
  }

  /** RetryTimes+1 bounds the turns iff there is nothing to retry, no group left to move through, or one group without
      cross-group retry; it bounds the upstream calls iff there is nothing to retry or at most one group left. */
  lemma RetryTimesIsTheLimitIff(cfg: Config, setup: Setup)
    requires setup.group <= cfg.groups && cfg.retryTimes >= 0 && (setup.freeModel || setup.preConsumeOk)
    ensures var left, limit := cfg.groups - setup.group, cfg.retryTimes + 1;
            && ((forall script: nat -> Attempt :: ContextChannelFirst(script) ==>
                   Relayed(cfg, setup, script).loop.attempts <= limit) <==>
                cfg.retryTimes == 0 || left == 0 || (left == 1 && !cfg.crossGroupRetry))
            && ((forall script: nat -> Attempt :: ContextChannelFirst(script) ==>
                   Calls(Relayed(cfg, setup, script).loop) <= limit) <==>
                cfg.retryTimes == 0 || left <= 1)
  {
    LimitsExact(cfg, setup);
    LimitsCompared(cfg, setup.group);
    var script := GreedyScript(cfg, setup.group, _ => true);
    GreedyFromStart(cfg, setup, _ => true);
    RelayGuarantees(cfg, setup, script);
    UpstreamCalls(cfg, script, Started(setup, cfg));
  }

  lemma LimitsCompared(cfg: Config, group: nat)
    requires group <= cfg.groups && cfg.retryTimes >= 0
    ensures var left, limit := cfg.groups - group, cfg.retryTimes + 1;
            && (MaxTurns(cfg, group) <= limit <==>
                  cfg.retryTimes == 0 || left == 0 || (left == 1 && !cfg.crossGroupRetry))
            && (MaxCalls(cfg, group) <= limit <==> cfg.retryTimes == 0 || left <= 1)
  {
    var left, times := cfg.groups - group, cfg.retryTimes;
    if left >= 2 && times >= 1 {
      Scale(2, left, times);
      Scale(2, left, times + 1);
    }
  }

  /** Every upstream error is a call. */
  lemma {:induction false} UpstreamCalls(cfg: Config, script: nat -> Attempt, s: Loop)
    requires Live(cfg, s.retry) && s.exit == Running
    ensures var f := RunLoop(cfg, script, s);
            && |f.upstream| - |s.upstream| <= Calls(f) - s.attempts
            && (f.failure == Some(NoBody) ==>
                  f.attempts >= 1 && !script(f.attempts - 1).bodyOk &&
                      |f.upstream| - |s.upstream| == f.attempts - 1 - s.attempts)
    decreases Budget(cfg, s.retry)
  {
    var a := script(s.attempts);
    var s' := Turn(cfg, a, s);
    OneCall(cfg, a, s);
    if s'.exit == Running {
      RunningRetries(cfg, a, s);
      RetrySpends(cfg, s.retry, a.pick);
      UpstreamCalls(cfg, script, s'.(retry := Increase(s'.retry)));
    }
  }

  lemma OneCall(cfg: Config, a: Attempt, s: Loop)
    requires s.exit == Running
    ensures var s' := Turn(cfg, a, s);
            && s'.attempts == s.attempts + 1
            && (s'.exit == Running ==> |s'.upstream| == |s.upstream| + 1)
            && (s'.exit != Running ==>
                  && |s'.upstream| - |s.upstream| <= Calls(s') - s.attempts
                  && (s'.failure == Some(NoBody) ==> !a.bodyOk && s'.upstream == s.upstream))
  {
  }

  // ---------------------------------------------------------------- failures that are not logged

  /** A failed request none of whose upstream errors reached the terminal log. */
  predicate Unlogged(f: Loop) {
    f.failure.Some? && f.upstream != [] && f.logged == []
  }

  ghost predicate BodiesAre(script: nat -> Attempt, readable: nat -> bool) {
    forall k: nat :: script(k).bodyOk == readable(k)
  }

  /** WHEN EVERY FAILURE IS LOGGED. Whatever the channels do, no request with upstream errors fails without a terminal
      log, if and only if a body that can be read on the first turn can be read on every further turn that
      can reach an upstream. */
  lemma EveryFailureLoggedIff(cfg: Config, setup: Setup, readable: nat -> bool)
    requires setup.group <= cfg.groups && cfg.retryTimes >= 0 && (setup.freeModel || setup.preConsumeOk)
    ensures (forall script: nat -> Attempt :: ContextChannelFirst(script) && BodiesAre(script, readable) ==>
               !Unlogged(Relayed(cfg, setup, script).loop)) <==>
            (readable(0) ==> AllReadable(readable, 1, MaxCalls(cfg, setup.group)))
  {
    if readable(0) ==> AllReadable(readable, 1, MaxCalls(cfg, setup.group)) {
      forall script: nat -> Attempt | ContextChannelFirst(script) && BodiesAre(script, readable)
        ensures !Unlogged(Relayed(cfg, setup, script).loop)
      {
        if Unlogged(Relayed(cfg, setup, script).loop) {
          UnloggedBody(cfg, setup, script);
        }
      }
    } else {
      var script := GreedyScript(cfg, setup.group, readable);
      GreedyFromStart(cfg, setup, readable);
      RelayGuarantees(cfg, setup, script);
      assert BodiesAre(script, readable) && Unlogged(Relayed(cfg, setup, script).loop);
    }
  }

  /** An upstream error needs a body on the first turn. */
  lemma FirstBodyRead(cfg: Config, setup: Setup, script: nat -> Attempt)
    requires setup.group <= cfg.groups && cfg.retryTimes >= 0 && (setup.freeModel || setup.preConsumeOk)
    ensures Relayed(cfg, setup, script).loop.upstream != [] ==> script(0).bodyOk
  {
    var start := Started(setup, cfg);
    if !script(0).bodyOk {
      assert Turn(cfg, script(0), start).exit == Broke && Turn(cfg, script(0), start).upstream == [];
    }
  }

  /** The body that could not be read was one of a turn that can reach an upstream. */
  lemma UnloggedBody(cfg: Config, setup: Setup, script: nat -> Attempt)
    requires setup.group <= cfg.groups && cfg.retryTimes >= 0 && (setup.freeModel || setup.preConsumeOk)
    requires ContextChannelFirst(script) && Unlogged(Relayed(cfg, setup, script).loop)
    ensures script(0).bodyOk && exists k: nat :: 1 <= k < MaxCalls(cfg, setup.group) && !script(k).bodyOk
  {
    RelayGuarantees(cfg, setup, script);
    UpstreamCalls(cfg, script, Started(setup, cfg));
    LimitsHold(cfg, setup, script);
    FirstBodyRead(cfg, setup, script);
    var k: nat := Relayed(cfg, setup, script).loop.attempts - 1;
    assert !script(k).bodyOk;
  }

  /** One such run: a retryable error from the channel in the context, then a body that cannot be read again. */
  lemma UnloggedRun(cfg: Config, setup: Setup, readable: nat -> bool)
    requires cfg.groups == setup.group == 0 && cfg.retryTimes >= 1 && (setup.freeModel || setup.preConsumeOk)
    requires readable(0) && !readable(1)
    ensures var f := Relayed(cfg, setup, GreedyScript(cfg, 0, readable)).loop;
            f.failure == Some(NoBody) && Unlogged(f) && Verdict(f, true)
  {
    assert !AllReadable(readable, 1, MaxCalls(cfg, 0));
    GreedyFromStart(cfg, setup, readable);
    RelayGuarantees(cfg, setup, GreedyScript(cfg, 0, readable));
  }
}
