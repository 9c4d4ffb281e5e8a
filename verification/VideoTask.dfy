/** Settling a video task while it is polled (controller/task_video.go): the user has paid exactly the quota
    recorded on the task until it fails, and nothing afterwards. */
module VideoTask {
  import opened Basics

  const SUBMITTED := "SUBMITTED"
  const QUEUED := "QUEUED"
  const IN_PROGRESS := "IN_PROGRESS"
  const SUCCESS := "SUCCESS"
  const FAILURE := "FAILURE"

  /** The stored task, and the user's net debit for it: everything charged minus everything given back. */
  datatype State = State(status: string, quota: int, debit: int)

  /** One poll: what the upstream answered, what the settings say, and which calls succeed. */
  datatype Poll = Poll(
    status: string,
    totalTokens: int,
    modelName: Option<string>,
    modelRatio: Option<real>,
    taskGroup: string,
    userGroup: Option<string>,
    groupRatio: real,
    userGroupRatio: Option<real>,
    chargeOk: bool,
    returnOk: bool,
    updateOk: bool,
    refundOk: bool)

  /** The conversion of a float64 to int: towards zero. */
  function Truncated(x: real): int {
    if x >= 0.0 then x.Floor else -((-x).Floor)
  }

  /** An empty status counts as a failure. */
  function Reported(p: Poll): string {
    if p.status == "" then FAILURE else p.status
  }

  predicate Known(status: string) {
    status in {SUBMITTED, QUEUED, IN_PROGRESS, SUCCESS, FAILURE}
  }

  function Group(p: Poll): string {
    if p.taskGroup != "" then p.taskGroup else if p.userGroup.Some? then p.userGroup.value else ""
  }

  /** The quota a success is re-priced at, when it is re-priced at all. */
  function Repriced(p: Poll): Option<int> {
    if && p.totalTokens > 0
       && p.modelName.Some? && p.modelName.value != ""
       && p.modelRatio.Some? && p.modelRatio.value > 0.0
       && Group(p) != ""
    then
      var ratio := if p.userGroupRatio.Some? then p.userGroupRatio.value else p.groupRatio;
      Some(Truncated(p.totalTokens as real * p.modelRatio.value * ratio))
    else None
  }

  /** What a re-priced success takes from the user beyond the recorded quota; negative when it gives back. */
  function Moved(quota: int, p: Poll): int {
    if Reported(p) != SUCCESS || Repriced(p).None? then 0
    else
      var delta := Repriced(p).value - quota;
      if (delta > 0 && p.chargeOk) || (delta < 0 && p.returnOk) then delta else 0
  }

  /** IncreaseUserQuota refuses a negative amount. */
  predicate Refunds(s: State, p: Poll) {
    Reported(p) == FAILURE && s.status != FAILURE && p.updateOk && s.quota > 0 && p.refundOk
  }

  function Step(s: State, p: Poll): State {
    if !Known(Reported(p)) then s
    else
      var moved := Moved(s.quota, p);
      var debit := s.debit + moved - if Refunds(s, p) then s.quota else 0;
      if p.updateOk then State(Reported(p), s.quota + moved, debit) else s.(debit := debit)
  }

  /** q is x without its fraction. */
  predicate IntegerPart(x: real, q: int) {
    if x >= 0.0 then q as real <= x < q as real + 1.0 else q as real - 1.0 < x <= q as real
  }

  /** The price, written out: a success is re-priced when tokens, a model name, a positive model ratio and a group are
      known, at tokens times model ratio times group ratio without its fraction, the ratio of the user's own
      group coming first. */
  lemma PriceWrittenOut(p: Poll)
    ensures Repriced(p).Some? <==>
            && p.totalTokens > 0 && p.modelName !in {None, Some("")} && p.modelRatio.Some? && p.modelRatio.value > 0.0
            && (p.taskGroup != "" || p.userGroup !in {None, Some("")})
    ensures Repriced(p).Some? ==>
            var tokens, ratio := p.totalTokens as real, p.modelRatio.value;
            && (p.userGroupRatio.Some? ==> IntegerPart(tokens * ratio * p.userGroupRatio.value, Repriced(p).value))
            && (p.userGroupRatio.None? ==> IntegerPart(tokens * ratio * p.groupRatio, Repriced(p).value))
  {
  }

  /** The stored status after a poll: the reported one, a failure for an empty one; an unknown status changes nothing,
      and a poll that cannot store the task leaves status and quota. */
  lemma StatusWrittenOut(s: State, p: Poll)
    ensures var known := {"SUBMITTED", "QUEUED", "IN_PROGRESS", "SUCCESS", "FAILURE", ""};
            && (p.status !in known ==> Step(s, p) == s)
            && (p.status in known && p.updateOk ==>
                  Step(s, p).status == if p.status == "" then "FAILURE" else p.status)
            && (!p.updateOk ==> Step(s, p).status == s.status && Step(s, p).quota == s.quota)
  {
  }

  /** What a poll moves: a re-priced success brings the user to the new price if the charge or return succeeds and else
      moves nothing; a failure gives the recorded quota back once; every other status moves nothing. */
  lemma MoneyWrittenOut(s: State, p: Poll)
    ensures var s', price := Step(s, p), Repriced(p);
            && (p.status == "SUCCESS" && price.Some? && (if price.value >= s.quota then p.chargeOk else p.returnOk) ==>
                  s'.debit - s.debit == price.value - s.quota && (p.updateOk ==> s'.quota == price.value))
            && (p.status == "SUCCESS" && price.Some? && (if price.value > s.quota then !p.chargeOk else !p.returnOk) ==>
                  s'.debit == s.debit && s'.quota == s.quota)
            && (p.status == "SUCCESS" && price.None? ==> s'.debit == s.debit && s'.quota == s.quota)
            && (p.status in {"FAILURE", ""} ==>
                  && s'.quota == s.quota
                  && s'.debit == if s.status != "FAILURE" && p.updateOk && s.quota > 0 && p.refundOk
                                 then s.debit - s.quota else s.debit)
            && (p.status !in {"SUCCESS", "FAILURE", ""} ==> s'.debit == s.debit && s'.quota == s.quota)
  {
  }

  // ---------------------------------------------------------------- the poll itself

  class Ledger {
    var status: string
    var quota: int
    var debit: int

    function Abs(): State
      reads this
    {
      State.State(status, quota, debit)
    }

    constructor (preConsumed: int)
      ensures Abs() == State.State(SUBMITTED, preConsumed, preConsumed)
    {
      status, quota, debit := SUBMITTED, preConsumed, preConsumed;
    }

    method IncreaseUserQuota(amount: int, ok: bool) returns (done: bool)
      modifies this`debit
      ensures done == (amount >= 0 && ok)
      ensures debit == old(debit) - if done then amount else 0
    {
      if amount < 0 || !ok { return false; }
      debit := debit - amount;
      done := true;
    }

    method DecreaseUserQuota(amount: int, ok: bool) returns (done: bool)
      modifies this`debit
      ensures done == (amount >= 0 && ok)
      ensures debit == old(debit) + if done then amount else 0
    {
      if amount < 0 || !ok { return false; }
      debit := debit + amount;
      done := true;
    }

    method UpdateVideoSingleTask(p: Poll) returns (ok: bool)
      modifies this
      ensures Abs() == Step(old(Abs()), p)
      ensures ok == Known(Reported(p))
    {
      var result := if p.status == "" then FAILURE else p.status;
      var shouldRefund := false;
      var oldQuota, preStatus := quota, status;
      var newQuota := quota;
      if result == SUBMITTED || result == QUEUED || result == IN_PROGRESS {
      } else if result == SUCCESS {
        newQuota := Reprice(p);
      } else if result == FAILURE {
        if oldQuota != 0 && preStatus != FAILURE {
          shouldRefund := true;
        }
      } else {
        return false;
      }
      if p.updateOk {
        status, quota := result, newQuota;
      } else {
        shouldRefund := false;
      }
      if shouldRefund {
        var _ := IncreaseUserQuota(oldQuota, p.refundOk);
      }
      ok := true;
    }

    /** The success branch: charge or give back the difference, and record it only if that worked. */
    method Reprice(p: Poll) returns (newQuota: int)
      requires Reported(p) == SUCCESS
      modifies this`debit
      ensures newQuota == quota + Moved(quota, p) && debit == old(debit) + Moved(quota, p)
    {
      newQuota := quota;
      var actual := Repriced(p);
      if actual.Some? {
        var delta := actual.value - quota;
        if delta > 0 {
          var done := DecreaseUserQuota(delta, p.chargeOk);
          if done {
            newQuota := actual.value;
          }
        } else if delta < 0 {
          var done := IncreaseUserQuota(-delta, p.returnOk);
          if done {
            newQuota := actual.value;
          }
        }
      }
    }
  }

  // ---------------------------------------------------------------- conservation

  /** The user has paid exactly the recorded quota, or nothing once the task has failed. */
  predicate Settled(s: State) {
    s.debit == if s.status == FAILURE then 0 else s.quota
  }

  /** What a poll needs so that the books still balance. */
  predicate Safe(s: State, p: Poll) {
    if !Known(Reported(p)) then true
    else if !p.updateOk then Moved(s.quota, p) == 0
    else if Reported(p) == FAILURE then s.status == FAILURE || s.quota == 0 || (s.quota > 0 && p.refundOk)
    else s.status != FAILURE || s.quota == 0
  }

  /** ONE POLL keeps the books balanced exactly when it is safe. */
  lemma StepSettled(s: State, p: Poll)
    requires Settled(s)
    ensures Settled(Step(s, p)) <==> Safe(s, p)
  {
    assert FAILURE != SUCCESS;
  }

  function Run(s: State, polls: seq<Poll>): State {
    if polls == [] then s else Step(Run(s, polls[..|polls| - 1]), polls[|polls| - 1])
  }

  /** The books balance now and after every poll. */
  predicate StaysSettled(s: State, polls: seq<Poll>)
    decreases |polls|
  {
    Settled(s) && (polls != [] ==> StaysSettled(Step(s, polls[0]), polls[1..]))
  }

  /** Every poll is safe when it comes. */
  predicate AllSafe(s: State, polls: seq<Poll>)
    decreases |polls|
  {
    polls != [] ==> Safe(s, polls[0]) && AllSafe(Step(s, polls[0]), polls[1..])
  }

  /** WHOLE RUNS: the books balance after every poll exactly when every poll was safe when it came. */
  lemma {:induction false} RunSettled(s: State, polls: seq<Poll>)
    requires Settled(s)
    ensures StaysSettled(s, polls) <==> AllSafe(s, polls)
    decreases |polls|
  {
    if polls != [] {
      StepSettled(s, polls[0]);
      if Safe(s, polls[0]) {
        RunSettled(Step(s, polls[0]), polls[1..]);
      }
    }
  }

  /** Ratios are not negative, and storing the task and refunding it succeed. */
  predicate Ordinary(p: Poll) {
    && p.groupRatio >= 0.0 && (p.userGroupRatio.Some? ==> p.userGroupRatio.value >= 0.0)
    && p.updateOk && p.refundOk
  }

  /** Once a failure has been reported, only failures (or statuses nobody knows) follow. */
  predicate FailureFinal(polls: seq<Poll>) {
    forall i, j :: 0 <= i < j < |polls| && Reported(polls[i]) == FAILURE && Known(Reported(polls[j])) ==>
                     Reported(polls[j]) == FAILURE
  }

  lemma RepricedNotNegative(p: Poll)
    requires Ordinary(p) && Repriced(p).Some?
    ensures Repriced(p).value >= 0
  {
    var ratio := if p.userGroupRatio.Some? then p.userGroupRatio.value else p.groupRatio;
    ProductNotNegative(p.totalTokens as real, p.modelRatio.value);
    ProductNotNegative(p.totalTokens as real * p.modelRatio.value, ratio);
  }

  lemma ProductNotNegative(x: real, y: real)
    requires x >= 0.0 && y >= 0.0
    ensures x * y >= 0.0
  {
  }

  lemma {:induction false} FailedBefore(s: State, polls: seq<Poll>)
    requires s.status != FAILURE && Run(s, polls).status == FAILURE
    ensures exists i :: 0 <= i < |polls| && Reported(polls[i]) == FAILURE
  {
    if polls != [] {
      var k := |polls| - 1;
      if Reported(polls[k]) != FAILURE {
        FailedBefore(s, polls[..k]);
        var i :| 0 <= i < k && Reported(polls[..k][i]) == FAILURE;
        assert Reported(polls[i]) == FAILURE;
      }
    }
  }

  /** CONSERVATION. From submission on, whatever happens to the charges and returns of single polls, the user's
      net debit is the recorded quota until the failure and zero after it. */
  lemma {:induction false} Conservation(s: State, polls: seq<Poll>)
    requires Settled(s) && s.status != FAILURE && s.quota >= 0
    requires FailureFinal(polls) && forall i :: 0 <= i < |polls| ==> Ordinary(polls[i])
    ensures Settled(Run(s, polls)) && Run(s, polls).quota >= 0
  {
    if polls != [] {
      var k := |polls| - 1;
      var before, p := Run(s, polls[..k]), polls[k];
      Conservation(s, polls[..k]);
      if before.status == FAILURE {
        FailedBefore(s, polls[..k]);
        var i :| 0 <= i < k && Reported(polls[..k][i]) == FAILURE;
        assert Reported(polls[i]) == FAILURE;
      }
      StepSettled(before, p);
      if Repriced(p).Some? {
        RepricedNotNegative(p);
      }
    }
  }

  /** The poll settles its price: it is stored, and the charge or return it needs goes through. */
  predicate Settles(s: State, p: Poll) {
    p.updateOk && (Repriced(p).Some? ==>
      (Repriced(p).value > s.quota ==> p.chargeOk) && (Repriced(p).value < s.quota ==> p.returnOk))
  }

  /** Once a success has settled, the same success reported again moves nothing, whichever calls succeed then. */
  lemma RepeatedSuccess(s: State, p: Poll, again: Poll)
    requires Reported(p) == Reported(again) == SUCCESS && Repriced(again) == Repriced(p) && Settles(s, p)
    ensures Step(Step(s, p), again) == Step(s, p)
    ensures Repriced(p).Some? ==> Step(s, p).quota == Repriced(p).value
  {
    assert FAILURE != SUCCESS;
  }

  /** When storing the task fails after a charge, the next identical success charges the same difference again. */
  lemma UnstoredSuccessChargesAgain(s: State, p: Poll)
    requires Reported(p) == SUCCESS && !p.updateOk
    ensures Step(Step(s, p), p).debit == s.debit + 2 * Moved(s.quota, p)
  {
  }
}
