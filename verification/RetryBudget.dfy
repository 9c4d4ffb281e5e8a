/** The retry counter shared by the relay loops (service/channel_select.go): channel selection may reset
    it when the "auto" token group moves on to its next group. */
module RetryBudget {

  /** common.RetryTimes, and the groups an "auto" token may use; groups is 0 for any other token. */
  datatype Config = Config(retryTimes: int, groups: nat, crossGroupRetry: bool)

  /** service.RetryParam and the auto-group index kept in the request context. */
  datatype Retry = Retry(count: int, resetNext: bool, group: nat)

  /** What getChannel does: use the channel already in the context, find one (for an auto token in the
      given group or the current one), fail to set it up, find none, or fail while looking in a group. */
  datatype Pick = Preset | Found(group: nat) | SetupFailed(group: nat) | NoneLeft | SelectFailed(group: nat)

  function Max(a: nat, b: nat): nat {
    if a < b then b else a
  }

  /** The group where an auto token's search ends; groups before it had no channel. */
  function GroupOf(r: Retry, pick: Pick): nat {
    match pick
    case Found(g) => Max(r.group, g)
    case SetupFailed(g) => Max(r.group, g)
    case SelectFailed(g) => Max(r.group, g)
    case _ => r.group
  }

  predicate Succeeds(cfg: Config, r: Retry, pick: Pick) {
    pick.Preset? || (pick.Found? && (cfg.groups == 0 || GroupOf(r, pick) < cfg.groups))
  }

  /** RetryParam and group index after getChannel: every group without a channel sets the counter back to 0, and so
      does the last turn of a group when cross-group retry is on. */
  function AfterPick(cfg: Config, r: Retry, pick: Pick): Retry {
    if pick.Preset? || cfg.groups == 0 then r
    else if pick.NoneLeft? || GroupOf(r, pick) >= cfg.groups then
      if r.group < cfg.groups then Retry(0, r.resetNext, cfg.groups) else r
    else
      var g := GroupOf(r, pick);
      var count := if g > r.group then 0 else r.count;
      if !pick.SelectFailed? && cfg.crossGroupRetry && count >= cfg.retryTimes then Retry(0, true, g + 1)
      else Retry(count, r.resetNext, g)
  }

  /** IncreaseRetry. */
  function Increase(r: Retry): Retry {
    if r.resetNext then r.(resetNext := false) else r.(count := r.count + 1)
  }

  /** A state the loop head can be in. */
  predicate Live(cfg: Config, r: Retry) {
    0 <= r.count <= cfg.retryTimes && r.group <= cfg.groups && !r.resetNext
  }

  /** Attempts that can still follow the current one. */
  function Budget(cfg: Config, r: Retry): nat
    requires Live(cfg, r)
  {
    (cfg.groups - r.group) * (cfg.retryTimes + 1) + (cfg.retryTimes - r.count)
  }

  /** Every retry costs at least one unit of the budget, resets included, and when a retry was decided
      with something remaining the counter cannot be past its limit. */
  lemma RetrySpends(cfg: Config, r: Retry, pick: Pick)
    requires Live(cfg, r) && Succeeds(cfg, r, pick)
    requires cfg.retryTimes - AfterPick(cfg, r, pick).count > 0
    ensures var r' := Increase(AfterPick(cfg, r, pick));
            Live(cfg, r') && Budget(cfg, r') < Budget(cfg, r)
  {
    var r' := Increase(AfterPick(cfg, r, pick));
    var left, left', per := cfg.groups - r.group, cfg.groups - r'.group, cfg.retryTimes + 1;
    if left' < left {
      assert left * per == left' * per + (left - left') * per;
      assert (left - left') * per >= per by { Product(left - left', per); }
    }
  }

  lemma FullBudget(cfg: Config, group: nat)
    requires cfg.retryTimes >= 0 && group <= cfg.groups
    ensures Budget(cfg, Retry(0, false, group)) + 1 == (cfg.groups - group + 1) * (cfg.retryTimes + 1)
  {
    var left, per := cfg.groups - group, cfg.retryTimes + 1;
    assert (left + 1) * per == left * per + per;
  }

  lemma Product(a: int, b: int)
    requires a >= 1 && b >= 0
    ensures a * b >= b
  {
  }

  // ---------------------------------------------------------------- exact limits

  /** Turns that can still be taken from a loop head when every turn selects a channel. */
  function TurnsLeft(cfg: Config, r: Retry): int {
    var left, more := cfg.groups - r.group, cfg.retryTimes - r.count;
    if cfg.groups == 0 then more + 1
    else if left == 0 then 1
    else if cfg.crossGroupRetry then (left - 1) * (cfg.retryTimes + 1) + more + 2
    else (left - 1) * cfg.retryTimes + more + 1
  }

  /** Those of them that can get a channel. */
  function CallsLeft(cfg: Config, r: Retry): int {
    if cfg.groups > 0 && (cfg.groups == r.group || cfg.crossGroupRetry) then TurnsLeft(cfg, r) - 1
    else TurnsLeft(cfg, r)
  }

  /** The most turns a request can take that starts with the channel in the context. */
  function MaxTurns(cfg: Config, group: nat): int {
    var left, times := cfg.groups - group, cfg.retryTimes;
    if times <= 0 then 1
    else if cfg.groups == 0 then times + 1
    else if left == 0 then 2
    else if cfg.crossGroupRetry then left * (times + 1) + 1
    else left * times + 1
  }

  /** The most upstream calls such a request can make. */
  function MaxCalls(cfg: Config, group: nat): int {
    var left, times := cfg.groups - group, cfg.retryTimes;
    if times <= 0 then 1
    else if cfg.groups == 0 then times + 1
    else if left == 0 then 1
    else if cfg.crossGroupRetry then left * (times + 1)
    else left * times + 1
  }

  lemma LimitsAfterFirst(cfg: Config, group: nat)
    requires cfg.retryTimes >= 1 && group <= cfg.groups
    ensures MaxTurns(cfg, group) == 1 + TurnsLeft(cfg, Retry(1, false, group))
    ensures MaxCalls(cfg, group) == 1 + CallsLeft(cfg, Retry(1, false, group))
  {
    var left, times := cfg.groups - group, cfg.retryTimes;
    assert left * times == (left - 1) * times + times;
    assert left * (times + 1) == (left - 1) * (times + 1) + (times + 1);
  }

  lemma Scale(a: int, b: int, c: nat)
    requires a <= b
    ensures a * c <= b * c
  {
  }

  lemma LeftBounds(cfg: Config, r: Retry)
    requires Live(cfg, r)
    ensures TurnsLeft(cfg, r) >= 1 && CallsLeft(cfg, r) >= 0
    ensures cfg.groups == 0 || r.group < cfg.groups ==> CallsLeft(cfg, r) >= 1
  {
    var left := cfg.groups - r.group;
    if left > 0 {
      Scale(0, left - 1, cfg.retryTimes);
      Scale(0, left - 1, cfg.retryTimes + 1);
    }
  }

  lemma LimitsPositive(cfg: Config, group: nat)
    requires group <= cfg.groups
    ensures MaxTurns(cfg, group) >= 1 && MaxCalls(cfg, group) >= 1
  {
    if cfg.retryTimes >= 1 {
      LimitsAfterFirst(cfg, group);
      LeftBounds(cfg, Retry(1, false, group));
    }
  }

  /** No choice of channels does better than one turn per turn. */
  lemma PickSpends(cfg: Config, r: Retry, pick: Pick)
    requires Live(cfg, r) && cfg.retryTimes >= 1 && !pick.Preset? && Succeeds(cfg, r, pick)
    requires cfg.retryTimes - AfterPick(cfg, r, pick).count > 0
    ensures var r' := Increase(AfterPick(cfg, r, pick));
            TurnsLeft(cfg, r') < TurnsLeft(cfg, r) && CallsLeft(cfg, r') < CallsLeft(cfg, r)
  {
    if cfg.groups > 0 {
      var r' := Increase(AfterPick(cfg, r, pick));
      var left, left', times := cfg.groups - r.group, cfg.groups - r'.group, cfg.retryTimes;
      if left' < left {
        Scale(left', left - 1, times);
        Scale(left', left - 1, times + 1);
        assert left' * times == (left' - 1) * times + times;
        assert left' * (times + 1) == (left' - 1) * (times + 1) + (times + 1);
      }
    }
  }

  /** A choice that uses everything: stay in the group, and without cross-group retry leave it at the last moment. */
  function Greedy(cfg: Config, r: Retry): Pick {
    if !cfg.crossGroupRetry && r.count >= cfg.retryTimes && r.group + 1 < cfg.groups then Found(r.group + 1)
    else Found(r.group)
  }

  /** The loop head after n such turns. */
  function GreedyAt(cfg: Config, r: Retry, n: nat): Retry {
    if n == 0 then r
    else
      var before := GreedyAt(cfg, r, n - 1);
      Increase(AfterPick(cfg, before, Greedy(cfg, before)))
  }

  lemma GreedySpends(cfg: Config, r: Retry)
    requires Live(cfg, r) && cfg.retryTimes >= 1 && (cfg.groups == 0 ==> r.group == 0)
    ensures var pick := Greedy(cfg, r); var after := AfterPick(cfg, r, pick); var r' := Increase(after);
            && (Succeeds(cfg, r, pick) <==> CallsLeft(cfg, r) >= 1)
            && (CallsLeft(cfg, r) == 0 ==> TurnsLeft(cfg, r) == 1)
            && (CallsLeft(cfg, r) >= 1 ==> (cfg.retryTimes - after.count > 0 <==> TurnsLeft(cfg, r) > 1))
            && (CallsLeft(cfg, r) >= 1 && TurnsLeft(cfg, r) == 1 ==> CallsLeft(cfg, r) == 1)
            && (CallsLeft(cfg, r) >= 1 && TurnsLeft(cfg, r) > 1 ==>
                  TurnsLeft(cfg, r') == TurnsLeft(cfg, r) - 1 && CallsLeft(cfg, r') == CallsLeft(cfg, r) - 1)
  {
    var left, times := cfg.groups - r.group, cfg.retryTimes;
    LeftBounds(cfg, r);
    if left > 0 {
      Scale(0, left - 1, times);
      Scale(0, left - 1, times + 1);
      if left > 1 {
        Scale(1, left - 1, times);
      }
      assert (left - 1) * times == (left - 2) * times + times;
      assert (left - 1) * (times + 1) == (left - 2) * (times + 1) + (times + 1);
    }
  }

  // ---------------------------------------------------------------- the counter along a run

  /** RetryParam and group index at the head of turn k, when every turn before it went on. */
  function HeadAt(cfg: Config, picks: nat -> Pick, group: nat, k: nat): Retry {
    if k == 0 then Retry(0, false, group)
    else Increase(AfterPick(cfg, HeadAt(cfg, picks, group, k - 1), picks(k - 1)))
  }

  /** Turn k gets a channel: the one in the context, or one that is found, for an auto token in a group that exists. */
  predicate GetsChannel(cfg: Config, picks: nat -> Pick, group: nat, k: nat) {
    picks(k).Preset? ||
    (picks(k).Found? &&
     (cfg.groups == 0 || (HeadAt(cfg, picks, group, k).group < cfg.groups && picks(k).group < cfg.groups)))
  }

  lemma GetsChannelIff(cfg: Config, picks: nat -> Pick, group: nat, k: nat)
    ensures Succeeds(cfg, HeadAt(cfg, picks, group, k), picks(k)) <==> GetsChannel(cfg, picks, group, k)
  {
  }

  /** What remains of the counter once turn k has its channel. */
  function LeftAt(cfg: Config, picks: nat -> Pick, group: nat, k: nat): int {
    cfg.retryTimes - AfterPick(cfg, HeadAt(cfg, picks, group, k), picks(k)).count
  }

  /** Without groups the counter is the turn. */
  lemma {:induction false} PlainCounter(cfg: Config, picks: nat -> Pick, k: nat)
    requires cfg.groups == 0
    ensures HeadAt(cfg, picks, 0, k) == Retry(k, false, 0) && LeftAt(cfg, picks, 0, k) == cfg.retryTimes - k
  {
    if k > 0 {
      PlainCounter(cfg, picks, k - 1);
    }
  }

  /** Until the counter has reached its limit, turns that find their channel in the group they are in only count. */
  lemma {:induction false} CountsInGroup(cfg: Config, picks: nat -> Pick, group: nat, k: nat)
    requires group <= cfg.groups && k <= cfg.retryTimes
    requires forall i: nat :: i < k ==> picks(i).Preset? || (picks(i).Found? && picks(i).group <= group)
    ensures HeadAt(cfg, picks, group, k) == Retry(k, false, group)
  {
    if k > 0 {
      CountsInGroup(cfg, picks, group, k - 1);
    }
  }

  /** What a selection does to counter and group, case by case. */
  lemma PickWrittenOut(cfg: Config, r: Retry, pick: Pick)
    ensures Succeeds(cfg, r, pick) <==>
            pick.Preset? || (pick.Found? && (cfg.groups == 0 || (r.group < cfg.groups && pick.group < cfg.groups)))
    ensures var r' := AfterPick(cfg, r, pick);
            && (pick.Preset? || cfg.groups <= r.group ==> r' == r)
            && (pick.NoneLeft? && r.group < cfg.groups ==> r' == Retry(0, r.resetNext, cfg.groups))
            && (!pick.Preset? && !pick.NoneLeft? && r.group < cfg.groups ==>
                  var moved := r.group < pick.group;
                  var count := if moved then 0 else r.count;
                  var full := cfg.crossGroupRetry && !pick.SelectFailed? && cfg.retryTimes <= count;
                  && (cfg.groups <= pick.group ==> r' == Retry(0, r.resetNext, cfg.groups))
                  && (pick.group < cfg.groups && !full ==> r' == if moved then Retry(0, r.resetNext, pick.group) else r)
                  && (pick.group < cfg.groups && full ==>
                        r' == Retry(0, true, if moved then pick.group + 1 else r.group + 1)))
  {
  }
}
