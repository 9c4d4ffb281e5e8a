/** Completing Epay orders under the order lock: EpayNotify and EpayReturn callbacks for any orders, in
    any number of threads, each reading the order, saving it as successful and crediting the user in
    separate steps that may fail. */
module EpayTopUp {
  import opened Basics
  import opened OrderLock

  const PENDING := "pending"
  const SUCCESS := "success"
  const PROVIDER_EPAY := "epay"

  /** Payment methods that belong to other gateways. */
  const FOREIGN_METHODS := {"stripe", "creem", "waffo", "waffo_pancake"}

  datatype TopUp = TopUp(
    user: int, amount: real, money: real, payMethod: string, provider: string, completeTime: int, status: string)

  /** A verified callback; parsed is decimal.NewFromString(paidMoney). */
  datatype Callback = Callback(order: Order, paidType: string, paidMoney: string, parsed: Option<real>)

  function Abs(x: real): real { if x < 0.0 then -x else x }

  /** Decimal.IntPart: truncation toward zero. */
  function IntPart(x: real): int {
    if x < 0.0 then -((-x).Floor) else x.Floor
  }

  /** Decimal.Round(2): to the nearest cent, halves away from zero, counted in cents. */
  function Cents(x: real): int {
    var c := (Abs(x) * 100.0 + 0.5).Floor;
    if x < 0.0 then -c else c
  }

  /** Every check between the status test and the write; sameMethod is strings.EqualFold. */
  predicate Payable(o: TopUp, cb: Callback, sameMethod: (string, string) -> bool) {
    && (o.provider == "" || o.provider == PROVIDER_EPAY)
    && o.payMethod !in FOREIGN_METHODS
    && cb.paidType != "" && sameMethod(o.payMethod, cb.paidType)
    && cb.paidMoney != "" && cb.parsed.Some? && Cents(o.money) == Cents(cb.parsed.value)
  }

  /** Progress of completeEpayTopUp inside the lock. */
  datatype Task = Fresh | WantWrite(row: TopUp) | WantCredit(row: TopUp) | Done

  datatype Credit = Credit(order: Order, user: int, quota: int, cb: Callback)

  datatype State = State(
    lock: OrderLock.State,
    tasks: seq<Task>,
    cbs: seq<Callback>,
    orders: map<Order, TopUp>,
    credits: seq<Credit>,
    failed: set<Order>)          // orders for which a save or a credit reported an error

  /** What does not change during a run. */
  datatype World = World(quotaPerUnit: real, sameMethod: (string, string) -> bool)

  function Quota(w: World, row: TopUp): int {
    IntPart(row.amount * w.quotaPerUnit)
  }

  /** One step: the lock protocol (an idle thread takes a callback), the three database accesses, or a
      new pending order. A save or credit that reports an error may or may not have taken effect. */
  datatype Move =
    | Lock(t: nat, cb: Callback)
    | Read(t: nat)
    | Write(t: nat, now: int, ok: bool, applied: bool)
    | Pay(t: nat, ok: bool, applied: bool)
    | Insert(o: Order, row: TopUp)

  predicate Inside(s: State, t: nat) {
    t < |s.lock.pcs| && t < |s.tasks| && t < |s.cbs| && s.lock.pcs[t].Holding?
  }

  function AfterRead(w: World, s: State, t: nat): Task
    requires Inside(s, t)
  {
    var o, cb := s.lock.pcs[t].o, s.cbs[t];
    if o in s.orders && s.orders[o].status == PENDING && Payable(s.orders[o], cb, w.sameMethod)
    then WantWrite(s.orders[o]) else Done
  }

  function Next(w: World, s: State, mv: Move): Option<State> {
    match mv
    case Lock(t, cb) => LockStep(s, t, cb)
    case Read(t) =>
      if Inside(s, t) && s.tasks[t].Fresh? then Some(s.(tasks := s.tasks[t := AfterRead(w, s, t)])) else None
    case Write(t, now, ok, applied) =>
      if Inside(s, t) && s.tasks[t].WantWrite? && (ok ==> applied) then
        var o, row := s.lock.pcs[t].o, s.tasks[t].row.(status := SUCCESS, completeTime := now);
        Some(s.(tasks := s.tasks[t := if ok then WantCredit(row) else Done],
                orders := if applied then s.orders[o := row] else s.orders,
                failed := if ok then s.failed else s.failed + {o}))
      else None
    case Pay(t, ok, applied) =>
      if Inside(s, t) && s.tasks[t].WantCredit? && (ok ==> applied) && (applied ==> Quota(w, s.tasks[t].row) >= 0) then
        var o, row := s.lock.pcs[t].o, s.tasks[t].row;
        Some(s.(tasks := s.tasks[t := Done],
                credits := if applied then s.credits + [Credit(o, row.user, Quota(w, row), s.cbs[t])] else s.credits,
                failed := if ok then s.failed else s.failed + {o}))
      else None
    case Insert(o, row) =>
      if o !in s.orders && row.status == PENDING then Some(s.(orders := s.orders[o := row])) else None
  }

  function LockStep(s: State, t: nat, cb: Callback): Option<State> {
    if t < |s.lock.pcs| && t < |s.tasks| && t < |s.cbs| && (s.lock.pcs[t].Holding? ==> s.tasks[t].Done?) then
      match Step(s.lock, t, cb.order)
      case None => None
      case Some(l) =>
        Some(if s.lock.pcs[t].Idle?
             then s.(lock := l, tasks := s.tasks[t := Fresh], cbs := s.cbs[t := cb]) else s.(lock := l))
    else None
  }

  function Start(threads: nat, cb: Callback): State {
    State.State(Init(threads), seq(threads, _ => Fresh), seq(threads, _ => cb), map[], [], {})
  }

  // ---------------------------------------------------------------- the invariant

  function Paid(credits: seq<Credit>, o: Order): nat {
    if credits == [] then 0
    else Paid(credits[..|credits| - 1], o) + if credits[|credits| - 1].order == o then 1 else 0
  }

  ghost predicate Shape(s: State) {
    |s.tasks| == |s.cbs| == |s.lock.pcs|
  }

  /** A thread between read and credit holds the order, and its row is the stored one. */
  predicate TaskOk(w: World, s: State, t: nat) {
    t < |s.tasks| && (s.tasks[t].WantWrite? || s.tasks[t].WantCredit?) ==>
      && Inside(s, t)
      && var o := s.lock.pcs[t].o;
         && o in s.orders && s.orders[o] == s.tasks[t].row && Paid(s.credits, o) == 0
         && Payable(s.tasks[t].row, s.cbs[t], w.sameMethod)
         && s.tasks[t].row.status == (if s.tasks[t].WantWrite? then PENDING else SUCCESS)
  }

  predicate TasksOk(w: World, s: State) {
    forall t: nat :: t < |s.tasks| ==> TaskOk(w, s, t)
  }

  /** The state of one order: paid at most once and only when stored as successful; a successful order
      is paid, about to be paid, or had a reported failure. */
  ghost predicate OrderOk(s: State, o: Order) {
    && Paid(s.credits, o) <= 1
    && (Paid(s.credits, o) == 1 ==> o in s.orders && s.orders[o].status == SUCCESS)
    && (o in s.orders ==> s.orders[o].status == PENDING || s.orders[o].status == SUCCESS)
    && (o in s.orders && s.orders[o].status == SUCCESS && Paid(s.credits, o) == 0 && o !in s.failed ==>
          exists t: nat :: Crediting(s, t, o))
  }

  predicate Crediting(s: State, t: nat, o: Order) {
    Inside(s, t) && s.lock.pcs[t].o == o && s.tasks[t].WantCredit?
  }

  ghost predicate OrdersOk(s: State) {
    forall o: Order :: OrderOk(s, o)
  }

  /** Each credit is the order's amount, to the order's user, for a callback that pays the order. */
  predicate CreditOk(w: World, s: State, c: Credit) {
    && c.order in s.orders
    && c.user == s.orders[c.order].user
    && c.quota == Quota(w, s.orders[c.order]) && c.quota >= 0
    && Payable(s.orders[c.order], c.cb, w.sameMethod)
  }

  predicate CreditsOk(w: World, s: State) {
    forall c :: c in s.credits ==> CreditOk(w, s, c)
  }

  ghost predicate Good(w: World, s: State) {
    OrderLock.Inv(s.lock) && Shape(s) && TasksOk(w, s) && OrdersOk(s) && CreditsOk(w, s)
  }

  lemma {:induction false} PaidSnoc(credits: seq<Credit>, c: Credit, o: Order)
    ensures Paid(credits + [c], o) == Paid(credits, o) + if c.order == o then 1 else 0
  {
    assert (credits + [c])[..|credits|] == credits;
  }

  // ---------------------------------------------------------------- preservation, move by move

  /** A step that leaves an order, its credits and its crediting thread alone. */
  lemma OrderFrame(s: State, s': State, o: Order)
    requires OrderOk(s, o)
    requires o in s.orders <==> o in s'.orders
    requires o in s.orders ==> s.orders[o] == s'.orders[o]
    requires Paid(s.credits, o) == Paid(s'.credits, o) && s.failed <= s'.failed
    requires forall t: nat :: Crediting(s, t, o) ==> Crediting(s', t, o)
    ensures OrderOk(s', o)
  {
  }

  lemma LockKeeps(w: World, s: State, t: nat, cb: Callback, s': State)
    requires Good(w, s) && LockStep(s, t, cb) == Some(s')
    ensures Good(w, s')
  {
    StepInv(s.lock, t, cb.order, s'.lock);
    LockTasks(w, s, t, cb, s');
    forall o: Order ensures OrderOk(s', o) {
      assert OrderOk(s, o);
      OrderFrame(s, s', o);
    }
  }

  lemma LockTasks(w: World, s: State, t: nat, cb: Callback, s': State)
    requires Shape(s) && TasksOk(w, s) && LockStep(s, t, cb) == Some(s')
    ensures TasksOk(w, s')
  {
    forall u: nat | u < |s'.tasks| ensures TaskOk(w, s', u) {
      assert TaskOk(w, s, u);
    }
  }

  lemma ReadKeeps(w: World, s: State, t: nat, s': State)
    requires Good(w, s) && Next(w, s, Read(t)) == Some(s')
    ensures Good(w, s')
  {
    assert OrderOk(s, s.lock.pcs[t].o);
    forall u: nat | u < |s'.tasks| ensures TaskOk(w, s', u) {
      assert TaskOk(w, s, u);
    }
    forall o: Order ensures OrderOk(s', o) {
      assert OrderOk(s, o);
      OrderFrame(s, s', o);
    }
  }

  /** While t holds its order, every other busy thread works on a different one. */
  lemma OthersElsewhere(w: World, s: State, t: nat)
    requires OrderLock.Inv(s.lock) && Inside(s, t)
    ensures forall u: nat :: u != t && Inside(s, u) ==> s.lock.pcs[u].o != s.lock.pcs[t].o
  {
    forall u: nat | u != t && Inside(s, u) ensures s.lock.pcs[u].o != s.lock.pcs[t].o {
      if s.lock.pcs[u].o == s.lock.pcs[t].o {
        OneHolder(s.lock, t, u, s.lock.pcs[t].o);
      }
    }
  }

  lemma WriteKeeps(w: World, s: State, t: nat, now: int, ok: bool, applied: bool, s': State)
    requires Good(w, s) && Next(w, s, Write(t, now, ok, applied)) == Some(s')
    ensures Good(w, s')
  {
    OthersElsewhere(w, s, t);
    WriteTasks(w, s, t, now, ok, applied, s');
    WriteOrders(w, s, t, now, ok, applied, s');
  }

  lemma WriteTasks(w: World, s: State, t: nat, now: int, ok: bool, applied: bool, s': State)
    requires TasksOk(w, s) && CreditsOk(w, s) && Next(w, s, Write(t, now, ok, applied)) == Some(s')
    requires forall u: nat :: u != t && Inside(s, u) ==> s.lock.pcs[u].o != s.lock.pcs[t].o
    ensures TasksOk(w, s') && CreditsOk(w, s')
  {
    assert TaskOk(w, s, t);
    forall u: nat | u < |s'.tasks| ensures TaskOk(w, s', u) {
      assert TaskOk(w, s, u);
    }
    forall c | c in s'.credits ensures CreditOk(w, s', c) {
      assert CreditOk(w, s, c);
    }
  }

  lemma WriteOrders(w: World, s: State, t: nat, now: int, ok: bool, applied: bool, s': State)
    requires TaskOk(w, s, t) && OrdersOk(s) && Next(w, s, Write(t, now, ok, applied)) == Some(s')
    ensures OrdersOk(s')
  {
    var o := s.lock.pcs[t].o;
    forall e: Order ensures OrderOk(s', e) {
      assert OrderOk(s, e);
      if e == o {
        assert ok ==> Crediting(s', t, o);
      } else {
        OrderFrame(s, s', e);
      }
    }
  }

  lemma PayKeeps(w: World, s: State, t: nat, ok: bool, applied: bool, s': State)
    requires Good(w, s) && Next(w, s, Pay(t, ok, applied)) == Some(s')
    ensures Good(w, s')
  {
    OthersElsewhere(w, s, t);
    PayCounts(w, s, t, ok, applied, s');
    PayTasks(w, s, t, ok, applied, s');
    var o := s.lock.pcs[t].o;
    assert TaskOk(w, s, t);
    forall e: Order ensures OrderOk(s', e) {
      assert OrderOk(s, e);
      if e != o {
        OrderFrame(s, s', e);
      }
    }
  }

  lemma PayCounts(w: World, s: State, t: nat, ok: bool, applied: bool, s': State)
    requires Next(w, s, Pay(t, ok, applied)) == Some(s')
    ensures forall e: Order ::
              Paid(s'.credits, e) == Paid(s.credits, e) + if applied && e == s.lock.pcs[t].o then 1 else 0
  {
    var c := Credit(s.lock.pcs[t].o, s.tasks[t].row.user, Quota(w, s.tasks[t].row), s.cbs[t]);
    forall e: Order
      ensures Paid(s'.credits, e) == Paid(s.credits, e) + if applied && e == s.lock.pcs[t].o then 1 else 0
    {
      PaidSnoc(s.credits, c, e);
    }
  }

  lemma PayTasks(w: World, s: State, t: nat, ok: bool, applied: bool, s': State)
    requires TasksOk(w, s) && CreditsOk(w, s) && Next(w, s, Pay(t, ok, applied)) == Some(s')
    requires forall u: nat :: u != t && Inside(s, u) ==> s.lock.pcs[u].o != s.lock.pcs[t].o
    ensures TasksOk(w, s') && CreditsOk(w, s')
  {
    PayCounts(w, s, t, ok, applied, s');
    assert TaskOk(w, s, t);
    forall u: nat | u < |s'.tasks| ensures TaskOk(w, s', u) {
      assert TaskOk(w, s, u);
    }
  }

  lemma InsertKeeps(w: World, s: State, o: Order, row: TopUp, s': State)
    requires Good(w, s) && Next(w, s, Insert(o, row)) == Some(s')
    ensures Good(w, s')
  {
    forall u: nat | u < |s'.tasks| ensures TaskOk(w, s', u) {
      assert TaskOk(w, s, u);
    }
    forall e: Order ensures OrderOk(s', e) {
      assert OrderOk(s, e);
      if e != o {
        OrderFrame(s, s', e);
      }
    }
    forall c | c in s'.credits ensures CreditOk(w, s', c) {
      assert CreditOk(w, s, c);
    }
  }

  lemma NextKeeps(w: World, s: State, mv: Move, s': State)
    requires Good(w, s) && Next(w, s, mv) == Some(s')
    ensures Good(w, s')
  {
    match mv
    case Lock(t, cb) => LockKeeps(w, s, t, cb, s');
    case Read(t) => ReadKeeps(w, s, t, s');
    case Write(t, now, ok, applied) => WriteKeeps(w, s, t, now, ok, applied, s');
    case Pay(t, ok, applied) => PayKeeps(w, s, t, ok, applied, s');
    case Insert(o, row) => InsertKeeps(w, s, o, row, s');
  }

  // ---------------------------------------------------------------- every run

  ghost predicate IsPayRun(w: World, trace: seq<State>, moves: seq<Move>) {
    |trace| == |moves| + 1 &&
    forall i :: 0 <= i < |moves| ==> Next(w, trace[i], moves[i]) == Some(trace[i + 1])
  }

  lemma {:induction false} PayRunGood(w: World, n: nat, cb: Callback, trace: seq<State>, moves: seq<Move>, k: nat)
    requires IsPayRun(w, trace, moves) && trace[0] == Start(n, cb) && k < |trace|
    ensures Good(w, trace[k])
  {
    if k == 0 {
      InitInv(n);
    } else {
      var i := k - 1;
      PayRunGood(w, n, cb, trace, moves, i);
      assert Next(w, trace[i], moves[i]) == Some(trace[i + 1]);
      NextKeeps(w, trace[i], moves[i], trace[k]);
    }
  }

  /** k is x in cents, rounded to the nearest, halves away from zero. */
  predicate RoundsTo(x: real, k: int) {
    if x >= 0.0 then k as real - 0.5 <= 100.0 * x < k as real + 0.5
    else k as real - 0.5 < 100.0 * x <= k as real + 0.5
  }

  lemma CentsRounds(x: real)
    ensures RoundsTo(x, Cents(x))
    ensures forall k :: RoundsTo(x, k) ==> k == Cents(x)
  {
  }

  /** q is x without its fraction. */
  predicate IntegerPart(x: real, q: int) {
    if x >= 0.0 then q as real <= x < q as real + 1.0 else q as real - 1.0 < x <= q as real
  }

  lemma IntPartTruncates(x: real)
    ensures IntegerPart(x, IntPart(x))
    ensures forall q :: IntegerPart(x, q) ==> q == IntPart(x)
  {
  }

  /** What a credit must be for its order: the integer part of amount times quota per unit, not negative, to the order's
      user; and what its callback must say: an Epay order, none of the other gateways' methods, the same
      method, and a price that rounds to the same cent. */
  ghost predicate CreditMatches(w: World, order: TopUp, c: Credit) {
    && c.user == order.user
    && c.quota >= 0 && IntegerPart(order.amount * w.quotaPerUnit, c.quota)
    && order.provider in {"", "epay"}
    && order.payMethod !in {"stripe", "creem", "waffo", "waffo_pancake"}
    && c.cb.paidType != "" && w.sameMethod(order.payMethod, c.cb.paidType)
    && c.cb.paidMoney != "" && c.cb.parsed.Some?
    && (exists k :: RoundsTo(order.money, k) && RoundsTo(c.cb.parsed.value, k))
  }

  lemma CreditOkMatches(w: World, s: State, c: Credit)
    requires CreditOk(w, s, c) && c.quota >= 0
    ensures CreditMatches(w, s.orders[c.order], c)
  {
    var order := s.orders[c.order];
    IntPartTruncates(order.amount * w.quotaPerUnit);
    CentsRounds(order.money);
    CentsRounds(c.cb.parsed.value);
  }

  /** CREDITED AT MOST ONCE. In every interleaving every order is credited at most once, by exactly the
      integer part of amount * QuotaPerUnit, to its own user, for a callback that matches its price and
      method, and only while it is stored as successful. An order stored as successful without a
      credit is being credited right now or had a save or credit reported as failed. */
  lemma CreditedOnce(w: World, n: nat, cb: Callback, trace: seq<State>, moves: seq<Move>, k: nat, o: Order)
    requires IsPayRun(w, trace, moves) && trace[0] == Start(n, cb) && k < |trace|
    ensures var s := trace[k];
            && Paid(s.credits, o) <= 1
            && (Paid(s.credits, o) == 1 ==> o in s.orders && s.orders[o].status == SUCCESS)
            && (forall c :: c in s.credits ==> c.order in s.orders && CreditMatches(w, s.orders[c.order], c))
            && (o in s.orders && s.orders[o].status == SUCCESS && Paid(s.credits, o) == 0 ==>
                  o in s.failed || exists t: nat :: Crediting(s, t, o))
  {
    PayRunGood(w, n, cb, trace, moves, k);
    assert OrderOk(trace[k], o);
    forall c | c in trace[k].credits
      ensures c.order in trace[k].orders && CreditMatches(w, trace[k].orders[c.order], c)
    {
      CreditOkMatches(w, trace[k], c);
    }
  }

  lemma MatchesPayable(w: World, order: TopUp, c: Credit)
    requires CreditMatches(w, order, c)
    ensures Payable(order, c.cb, w.sameMethod) && Quota(w, order) == c.quota
  {
    IntPartTruncates(order.amount * w.quotaPerUnit);
    CentsRounds(order.money);
    CentsRounds(c.cb.parsed.value);
  }

  /** A PAYMENT GOES THROUGH: when a thread holds a pending order with a matching callback and its three database
      accesses succeed, the order is stored as successful at that time and credited by exactly that credit. */
  lemma PaymentGoesThrough(w: World, s: State, t: nat, now: int, c: Credit) returns (s1: State, s2: State, s3: State)
    requires Inside(s, t) && s.tasks[t].Fresh? && s.lock.pcs[t].o == c.order && s.cbs[t] == c.cb
    requires c.order in s.orders && s.orders[c.order].status == "pending"
    requires CreditMatches(w, s.orders[c.order], c)
    ensures Next(w, s, Read(t)) == Some(s1)
    ensures Next(w, s1, Write(t, now, true, true)) == Some(s2)
    ensures Next(w, s2, Pay(t, true, true)) == Some(s3)
    ensures s3.credits == s.credits + [c]
    ensures s3.orders == s.orders[c.order := s.orders[c.order].(status := "success", completeTime := now)]
  {
    var order := s.orders[c.order];
    var row := order.(status := SUCCESS, completeTime := now);
    MatchesPayable(w, order, c);
    s1 := s.(tasks := s.tasks[t := WantWrite(order)]);
    assert AfterRead(w, s, t) == WantWrite(order);
    s2 := s1.(tasks := s1.tasks[t := WantCredit(row)], orders := s.orders[c.order := row]);
    assert Next(w, s1, Write(t, now, true, true)) == Some(s2);
    assert Quota(w, row) == c.quota;
    s3 := s2.(tasks := s2.tasks[t := Done], credits := s.credits + [c]);
  }

  /** The order of events: a credit is only ever appended in a state where the row already says success. */
  lemma CreditAfterSuccess(w: World, n: nat, cb: Callback, trace: seq<State>, moves: seq<Move>, k: nat)
    requires IsPayRun(w, trace, moves) && trace[0] == Start(n, cb) && k < |moves|
    requires trace[k + 1].credits != trace[k].credits
    ensures var c := trace[k + 1].credits[|trace[k + 1].credits| - 1];
            trace[k + 1].credits == trace[k].credits + [c] &&
            c.order in trace[k].orders && trace[k].orders[c.order].status == SUCCESS &&
                Paid(trace[k].credits, c.order) == 0
  {
    PayRunGood(w, n, cb, trace, moves, k);
    assert Next(w, trace[k], moves[k]) == Some(trace[k + 1]);
    assert TaskOk(w, trace[k], moves[k].t);
  }

  // ---------------------------------------------------------------- credits that are lost

  /** Stored as successful, not credited, and no thread is about to credit it. */
  ghost predicate Lost(s: State, o: Order) {
    && o in s.orders && s.orders[o].status == SUCCESS && Paid(s.credits, o) == 0
    && forall t: nat :: !Crediting(s, t, o)
  }

  /** The step that loses a credit: a save that took effect but reported an error, or a credit that did not take
      effect. */
  predicate Loses(s: State, mv: Move, o: Order) {
    match mv
    case Write(t, _, ok, applied) => Inside(s, t) && s.lock.pcs[t].o == o && !ok && applied
    case Pay(t, _, applied) => Inside(s, t) && s.lock.pcs[t].o == o && !applied
    case _ => false
  }

  lemma LostByWrite(w: World, s: State, t: nat, now: int, ok: bool, applied: bool, s': State, o: Order)
    requires Good(w, s) && Next(w, s, Write(t, now, ok, applied)) == Some(s')
    ensures Lost(s', o) <==> Lost(s, o) || Loses(s, Write(t, now, ok, applied), o)
  {
    OthersElsewhere(w, s, t);
    assert TaskOk(w, s, t);
    if s.lock.pcs[t].o == o {
      assert ok ==> Crediting(s', t, o);
    } else {
      assert forall u: nat :: Crediting(s, u, o) <==> Crediting(s', u, o);
    }
  }

  lemma LostByPay(w: World, s: State, t: nat, ok: bool, applied: bool, s': State, o: Order)
    requires Good(w, s) && Next(w, s, Pay(t, ok, applied)) == Some(s')
    ensures Lost(s', o) <==> Lost(s, o) || Loses(s, Pay(t, ok, applied), o)
  {
    OthersElsewhere(w, s, t);
    PayCounts(w, s, t, ok, applied, s');
    assert TaskOk(w, s, t);
    if s.lock.pcs[t].o == o {
      assert Crediting(s, t, o);
    } else {
      assert forall u: nat :: Crediting(s, u, o) <==> Crediting(s', u, o);
    }
  }

  lemma CreditingThroughLock(w: World, s: State, t: nat, cb: Callback, s': State, u: nat, o: Order)
    requires Shape(s) && TaskOk(w, s, u) && LockStep(s, t, cb) == Some(s')
    ensures Crediting(s, u, o) <==> Crediting(s', u, o)
  {
  }

  lemma LostByLock(w: World, s: State, t: nat, cb: Callback, s': State, o: Order)
    requires Shape(s) && TasksOk(w, s) && LockStep(s, t, cb) == Some(s')
    ensures Lost(s', o) <==> Lost(s, o)
  {
    forall u: nat ensures Crediting(s, u, o) <==> Crediting(s', u, o) {
      CreditingThroughLock(w, s, t, cb, s', u, o);
    }
  }

  lemma LostByRead(w: World, s: State, t: nat, s': State, o: Order)
    requires Next(w, s, Read(t)) == Some(s')
    ensures Lost(s', o) <==> Lost(s, o)
  {
    assert forall u: nat :: Crediting(s, u, o) <==> Crediting(s', u, o);
  }

  lemma LostByInsert(w: World, s: State, e: Order, row: TopUp, s': State, o: Order)
    requires Next(w, s, Insert(e, row)) == Some(s')
    ensures Lost(s', o) <==> Lost(s, o)
  {
    assert forall u: nat :: Crediting(s, u, o) <==> Crediting(s', u, o);
  }

  /** After any step an order is lost iff it was lost before or this step loses it. */
  lemma LostIff(w: World, s: State, mv: Move, s': State, o: Order)
    requires Good(w, s) && Next(w, s, mv) == Some(s')
    ensures Lost(s', o) <==> Lost(s, o) || Loses(s, mv, o)
  {
    match mv
    case Write(t, now, ok, applied) => LostByWrite(w, s, t, now, ok, applied, s', o);
    case Pay(t, ok, applied) => LostByPay(w, s, t, ok, applied, s', o);
    case Lock(t, cb) => LostByLock(w, s, t, cb, s', o);
    case Read(t) => LostByRead(w, s, t, s', o);
    case Insert(e, row) => LostByInsert(w, s, e, row, s', o);
  }

  /** A LOST CREDIT IS LOST FOR GOOD. In every run an order is lost at a point iff some earlier step lost it; from then
      on it stays stored as successful and no later callback credits it. */
  lemma {:induction false} LostForever(
      w: World, n: nat, cb: Callback, trace: seq<State>, moves: seq<Move>, k: nat, o: Order)
    requires IsPayRun(w, trace, moves) && trace[0] == Start(n, cb) && k < |trace|
    ensures Lost(trace[k], o) <==> exists i :: 0 <= i < k && Loses(trace[i], moves[i], o)
  {
    if k > 0 {
      var i := k - 1;
      LostForever(w, n, cb, trace, moves, i, o);
      PayRunGood(w, n, cb, trace, moves, i);
      assert Next(w, trace[i], moves[i]) == Some(trace[i + 1]);
      LostIff(w, trace[i], moves[i], trace[k], o);
    }
  }
}
