/** The per-order lock of topup.go: a table of reference-counted mutexes, created and destroyed on
    demand. Every shared-memory access of LockOrder and UnlockOrder is one step, and any number of
    threads take steps in any order. */
module OrderLock {
  import opened Basics

  type Order = string
  /** Identity of one refCountedMutex allocation. */
  type Mutex = nat

  /** Where a thread stands; each constructor names the access it makes next. */
  datatype Pc =
    | Idle                                     // not using an order; next: call LockOrder
    | WantCreate(o: Order)                     // createLock.Lock
    | Loading(o: Order)                        // orderLocks.Load
    | Storing(o: Order)                        // orderLocks.Store of a new mutex
    | Counting(o: Order, m: Mutex)             // refCount++
    | Leaving(o: Order, m: Mutex)              // createLock.Unlock
    | Waiting(o: Order, m: Mutex)              // mu.Lock
    | Holding(o: Order, m: Mutex)              // owns the order; next: UnlockOrder's Load
    | Releasing(o: Order, m: Mutex, f: Mutex)  // locked m, found f; next: f.mu.Unlock
    | WantDrop(o: Order, m: Mutex)             // createLock.Lock
    | Dropping(o: Order, m: Mutex)             // refCount--
    | Deleting(o: Order, m: Mutex)             // Delete when the count is zero
    | Finishing                                // createLock.Unlock

  datatype State = State(
    pcs: seq<Pc>,               // one per thread
    create: Option<nat>,        // the thread inside createLock
    table: map<Order, Mutex>,   // orderLocks
    count: map<Mutex, int>,     // refCount fields, 0 when never touched
    locked: set<Mutex>,         // mutexes in the locked state; Go mutexes do not know their owner
    next: nat,                  // allocations so far
    fatal: bool)                // an unlock of an unlocked mutex aborted the process

  function Count(s: State, m: Mutex): int {
    if m in s.count then s.count[m] else 0
  }

  function Init(threads: nat): State {
    State(seq(threads, _ => Idle), None, map[], map[], {}, 0, false)
  }

  /** createLock and mu are taken by somebody else. */
  predicate Blocked(s: State, pc: Pc) {
    ((pc.WantCreate? || pc.WantDrop?) && s.create.Some?) || (pc.Waiting? && pc.m in s.locked)
  }

  /** Control flow of LockOrder (an idle thread picks any order o) and then UnlockOrder. */
  function NextPc(s: State, pc: Pc, o: Order): Pc {
    match pc
    case Idle => WantCreate(o)
    case WantCreate(o) => Loading(o)
    case Loading(o) => if o in s.table then Counting(o, s.table[o]) else Storing(o)
    case Storing(o) => Counting(o, s.next)
    case Counting(o, m) => Leaving(o, m)
    case Leaving(o, m) => Waiting(o, m)
    case Waiting(o, m) => Holding(o, m)
    case Holding(o, m) => if o in s.table then Releasing(o, m, s.table[o]) else Idle
    case Releasing(o, _, f) => if f in s.locked then WantDrop(o, f) else pc
    case WantDrop(o, m) => Dropping(o, m)
    case Dropping(o, m) => Deleting(o, m)
    case Deleting(_, _) => Finishing
    case Finishing => Idle
  }

  function NextCreate(s: State, t: nat, pc: Pc): Option<nat> {
    if pc.WantCreate? || pc.WantDrop? then Some(t)
    else if pc.Leaving? || pc.Finishing? then None
    else s.create
  }

  function NextTable(s: State, pc: Pc): map<Order, Mutex> {
    if pc.Storing? then s.table[pc.o := s.next]
    else if pc.Deleting? && Count(s, pc.m) == 0 then s.table - {pc.o}
    else s.table
  }

  function NextCount(s: State, pc: Pc): map<Mutex, int> {
    if pc.Counting? then s.count[pc.m := Count(s, pc.m) + 1]
    else if pc.Dropping? then s.count[pc.m := Count(s, pc.m) - 1]
    else s.count
  }

  function NextLocked(s: State, pc: Pc): set<Mutex> {
    if pc.Waiting? then s.locked + {pc.m}
    else if pc.Releasing? then s.locked - {pc.f}
    else s.locked
  }

  /** The next step of thread t, or None when it is blocked. */
  function Step(s: State, t: nat, o: Order): Option<State>
    requires t < |s.pcs|
  {
    var pc := s.pcs[t];
    if Blocked(s, pc) then None
    else Some(State(s.pcs[t := NextPc(s, pc, o)], NextCreate(s, t, pc),
                    NextTable(s, pc), NextCount(s, pc), NextLocked(s, pc),
                    if pc.Storing? then s.next + 1 else s.next,
                    s.fatal || (pc.Releasing? && pc.f !in s.locked)))
  }

  // ---------------------------------------------------------------- the invariant

  predicate InCreate(pc: Pc) {
    pc.Loading? || pc.Storing? || pc.Counting? || pc.Leaving? || pc.Dropping? || pc.Deleting? || pc.Finishing?
  }

  /** The thread is counted in m's refCount. */
  predicate RefsTo(pc: Pc, m: Mutex) {
    (pc.Leaving? || pc.Waiting? || pc.Holding? || pc.Releasing? || pc.WantDrop? || pc.Dropping?) && pc.m == m
  }

  /** The thread holds mutex m locked. */
  predicate Locks(pc: Pc, m: Mutex) {
    (pc.Holding? || pc.Releasing?) && pc.m == m
  }

  function RefCount(pcs: seq<Pc>, m: Mutex): nat {
    if pcs == [] then 0
    else RefCount(pcs[..|pcs| - 1], m) + if RefsTo(pcs[|pcs| - 1], m) then 1 else 0
  }

  /** A thread that names a mutex names the one the table holds for its order. */
  predicate PcAgrees(s: State, pc: Pc) {
    && (pc.Storing? ==> pc.o !in s.table)
    && (pc.Counting? || pc.Leaving? || pc.Waiting? || pc.Holding? || pc.Releasing? || pc.WantDrop? || pc.Dropping? ||
          pc.Deleting?
        ==> pc.o in s.table && s.table[pc.o] == pc.m)
    && (pc.Releasing? ==> pc.f == pc.m)
  }

  ghost predicate CreateOk(s: State) {
    && (s.create.Some? ==> s.create.value < |s.pcs|)
    && (forall t :: 0 <= t < |s.pcs| ==> (InCreate(s.pcs[t]) <==> s.create == Some(t)))
  }

  ghost predicate PcsOk(s: State) {
    forall t :: 0 <= t < |s.pcs| ==> PcAgrees(s, s.pcs[t])
  }

  /** Orders own distinct mutexes, and an entry without references is being created or deleted right now. */
  ghost predicate TableOk(s: State) {
    && (forall o :: o in s.table ==> s.table[o] < s.next)
    && (forall o, o' :: o in s.table && o' in s.table && s.table[o] == s.table[o'] ==> o == o')
    && (forall o :: o in s.table && Count(s, s.table[o]) == 0 ==>
          exists t :: 0 <= t < |s.pcs| && Transient(s.pcs[t], o, s.table[o]))
  }

  /** Between Store and refCount++, or between refCount-- and Delete. */
  predicate Transient(pc: Pc, o: Order, m: Mutex) {
    pc == Counting(o, m) || pc == Deleting(o, m)
  }

  ghost predicate CountsOk(s: State) {
    forall m: Mutex :: Count(s, m) == RefCount(s.pcs, m)
  }

  ghost predicate LocksOk(s: State) {
    && (forall t, m :: 0 <= t < |s.pcs| && Locks(s.pcs[t], m) ==> m in s.locked)
    && (forall m :: m in s.locked ==> exists t :: 0 <= t < |s.pcs| && Locks(s.pcs[t], m))
    && (forall t, t', m :: 0 <= t < |s.pcs| && 0 <= t' < |s.pcs| && Locks(s.pcs[t], m) && Locks(s.pcs[t'], m) ==>
          t == t')
  }

  ghost predicate Inv(s: State) {
    CreateOk(s) && PcsOk(s) && TableOk(s) && CountsOk(s) && LocksOk(s) && !s.fatal
  }

  // ---------------------------------------------------------------- counting references

  lemma {:induction false} RefCountUpdate(pcs: seq<Pc>, t: nat, pc: Pc, m: Mutex)
    requires t < |pcs|
    ensures RefCount(pcs[t := pc], m) ==
            RefCount(pcs, m) - (if RefsTo(pcs[t], m) then 1 else 0) + (if RefsTo(pc, m) then 1 else 0)
  {
    var k := |pcs| - 1;
    if t == k {
      assert pcs[t := pc][..k] == pcs[..k];
    } else {
      assert pcs[t := pc][..k] == pcs[..k][t := pc];
      RefCountUpdate(pcs[..k], t, pc, m);
    }
  }

  lemma {:induction false} RefCountPositive(pcs: seq<Pc>, m: Mutex)
    ensures RefCount(pcs, m) > 0 <==> exists t :: 0 <= t < |pcs| && RefsTo(pcs[t], m)
  {
    if pcs != [] {
      var k := |pcs| - 1;
      RefCountPositive(pcs[..k], m);
      if RefCount(pcs[..k], m) > 0 {
        var t :| 0 <= t < k && RefsTo(pcs[..k][t], m);
        assert RefsTo(pcs[t], m);
      }
      assert forall t :: 0 <= t < k ==> pcs[..k][t] == pcs[t];
    }
  }

  // ---------------------------------------------------------------- the invariant holds in every run

  lemma {:induction false} InitCounts(n: nat, m: Mutex)
    ensures RefCount(Init(n).pcs, m) == 0
  {
    RefCountPositive(Init(n).pcs, m);
  }

  lemma InitInv(n: nat)
    ensures Inv(Init(n))
  {
    forall m: Mutex ensures Count(Init(n), m) == RefCount(Init(n).pcs, m) {
      InitCounts(n, m);
    }
  }

  lemma StepCreate(s: State, t: nat, o: Order, s': State)
    requires t < |s.pcs| && CreateOk(s) && Step(s, t, o) == Some(s')
    ensures CreateOk(s')
  {
  }

  /** Only the mutex a thread itself takes or frees changes hands. */
  lemma StepLocks(s: State, t: nat, o: Order, s': State)
    requires t < |s.pcs| && PcsOk(s) && LocksOk(s) && !s.fatal && Step(s, t, o) == Some(s')
    ensures LocksOk(s') && !s'.fatal
  {
    var pc := s.pcs[t];
    assert PcAgrees(s, pc);
    if pc.Waiting? {
      assert Locks(s'.pcs[t], pc.m);
    } else if pc.Releasing? {
      assert Locks(pc, pc.m);
    }
    forall m | m in s'.locked ensures exists u :: 0 <= u < |s'.pcs| && Locks(s'.pcs[u], m) {
      if m in s.locked {
        var u :| 0 <= u < |s.pcs| && Locks(s.pcs[u], m);
        assert Locks(s'.pcs[u], m);
      }
    }
  }

  lemma StepCounts(s: State, t: nat, o: Order, s': State)
    requires t < |s.pcs| && PcsOk(s) && LocksOk(s) && CountsOk(s) && Step(s, t, o) == Some(s')
    ensures CountsOk(s')
  {
    assert PcAgrees(s, s.pcs[t]);
    assert s.pcs[t].Releasing? ==> Locks(s.pcs[t], s.pcs[t].m);
    assert s'.pcs == s.pcs[t := s'.pcs[t]];
    forall m: Mutex ensures Count(s', m) == RefCount(s'.pcs, m) {
      RefCountUpdate(s.pcs, t, s'.pcs[t], m);
    }
  }

  lemma StepOwnPc(s: State, t: nat, o: Order, s': State)
    requires t < |s.pcs| && PcsOk(s) && Step(s, t, o) == Some(s')
    ensures PcAgrees(s', s'.pcs[t])
  {
    assert PcAgrees(s, s.pcs[t]);
  }

  /** What a step does to the table does not disturb any other thread: an entry is added only under
      createLock, and removed only when no thread is counted in it. */
  lemma StepOtherPc(s: State, t: nat, o: Order, s': State, u: nat)
    requires t < |s.pcs| && CreateOk(s) && PcsOk(s) && CountsOk(s) && Step(s, t, o) == Some(s') && u < |s.pcs| && u != t
    ensures PcAgrees(s', s.pcs[u])
  {
    assert PcAgrees(s, s.pcs[t]) && PcAgrees(s, s.pcs[u]);
    if s.pcs[t].Storing? || s.pcs[t].Deleting? {
      assert !InCreate(s.pcs[u]);
      if s.pcs[t].Deleting? {
        RefCountPositive(s.pcs, s.pcs[t].m);
      }
    }
  }

  lemma StepPcs(s: State, t: nat, o: Order, s': State)
    requires t < |s.pcs| && CreateOk(s) && PcsOk(s) && CountsOk(s) && Step(s, t, o) == Some(s')
    ensures PcsOk(s')
  {
    StepOwnPc(s, t, o, s');
    forall u | 0 <= u < |s'.pcs| ensures PcAgrees(s', s'.pcs[u]) {
      if u != t {
        StepOtherPc(s, t, o, s', u);
      }
    }
  }

  /** An entry without references stays marked by the thread creating or deleting it. */
  lemma StepEntry(s: State, t: nat, o: Order, s': State, e: Order)
    requires t < |s.pcs| && PcsOk(s) && TableOk(s) && CountsOk(s) && Step(s, t, o) == Some(s')
    ensures e in s'.table && Count(s', s'.table[e]) == 0 ==>
            exists u :: 0 <= u < |s'.pcs| && Transient(s'.pcs[u], e, s'.table[e])
  {
    var pc := s.pcs[t];
    assert PcAgrees(s, pc);
    if e in s'.table && Count(s', s'.table[e]) == 0 {
      var m := s'.table[e];
      if e in s.table && Count(s, m) == 0 {
        var u :| 0 <= u < |s.pcs| && Transient(s.pcs[u], e, m);
        assert u != t ==> Transient(s'.pcs[u], e, m);
        assert u == t ==> !pc.Counting?;
      } else {
        if pc.Counting? {
          RefCountPositive(s.pcs, m);
        }
        assert Transient(s'.pcs[t], e, m);
      }
    }
  }

  lemma StepTable(s: State, t: nat, o: Order, s': State)
    requires t < |s.pcs| && PcsOk(s) && TableOk(s) && CountsOk(s) && Step(s, t, o) == Some(s')
    ensures TableOk(s')
  {
    StepTableShape(s, s.pcs[t]);
    forall e | e in s'.table && Count(s', s'.table[e]) == 0
      ensures exists u :: 0 <= u < |s'.pcs| && Transient(s'.pcs[u], e, s'.table[e])
    {
      StepEntry(s, t, o, s', e);
    }
  }

  lemma StepTableShape(s: State, pc: Pc)
    requires TableOk(s)
    ensures var t, n := NextTable(s, pc), if pc.Storing? then s.next + 1 else s.next;
            (forall o :: o in t ==> t[o] < n) &&
            (forall o, o' :: o in t && o' in t && t[o] == t[o'] ==> o == o')
  {
  }

  lemma StepInv(s: State, t: nat, o: Order, s': State)
    requires t < |s.pcs| && Inv(s) && Step(s, t, o) == Some(s')
    ensures Inv(s')
  {
    StepCreate(s, t, o, s');
    StepLocks(s, t, o, s');
    StepCounts(s, t, o, s');
    StepPcs(s, t, o, s');
    StepTable(s, t, o, s');
  }

  /** A run: which thread moves at each point, and which order it asks for when idle. */
  ghost predicate IsRun(trace: seq<State>, moves: seq<(nat, Order)>) {
    |trace| == |moves| + 1 &&
    forall i :: 0 <= i < |moves| ==>
      moves[i].0 < |trace[i].pcs| && Step(trace[i], moves[i].0, moves[i].1) == Some(trace[i + 1])
  }

  lemma {:induction false} RunInv(trace: seq<State>, moves: seq<(nat, Order)>, k: nat)
    requires IsRun(trace, moves) && Inv(trace[0]) && k < |trace|
    ensures Inv(trace[k]) && |trace[k].pcs| == |trace[0].pcs|
  {
    if k > 0 {
      RunInv(trace, moves, k - 1);
      var i := k - 1;
      assert Step(trace[i], moves[i].0, moves[i].1) == Some(trace[i + 1]);
      StepInv(trace[i], moves[i].0, moves[i].1, trace[k]);
    }
  }

  // ---------------------------------------------------------------- what the lock guarantees

  predicate Holds(s: State, t: nat, o: Order) {
    t < |s.pcs| && s.pcs[t].Holding? && s.pcs[t].o == o
  }

  lemma OneHolder(s: State, t: nat, t': nat, o: Order)
    requires PcsOk(s) && LocksOk(s) && Holds(s, t, o) && Holds(s, t', o)
    ensures t == t'
  {
    assert PcAgrees(s, s.pcs[t]) && PcAgrees(s, s.pcs[t']);
    assert Locks(s.pcs[t], s.pcs[t].m) && Locks(s.pcs[t'], s.pcs[t].m);
  }

  /** At every moment of every run: at most one holder per order; a releasing thread has found the very
      mutex it locked; no unlock aborts; the table has an entry for every order in use, outside
      createLock only those with a positive count, and it is empty when nobody uses the lock. */
  lemma LockGuarantees(n: nat, trace: seq<State>, moves: seq<(nat, Order)>, k: nat)
    requires IsRun(trace, moves) && trace[0] == Init(n) && k < |trace|
    ensures var s := trace[k];
            && (forall t: nat, t': nat, o :: Holds(s, t, o) && Holds(s, t', o) ==> t == t')
            && (forall t :: 0 <= t < |s.pcs| && s.pcs[t].Releasing? ==>
                  s.pcs[t].f == s.pcs[t].m && s.pcs[t].m in s.locked)
            && (forall t :: 0 <= t < |s.pcs| && s.pcs[t].Holding? ==> s.pcs[t].o in s.table)
            && !s.fatal
            && (s.create.None? ==> forall o :: o in s.table ==> Count(s, s.table[o]) > 0)
            && (forall m: Mutex :: Count(s, m) > 0 ==> exists o :: o in s.table && s.table[o] == m)
            && ((forall t :: 0 <= t < |s.pcs| ==> s.pcs[t].Idle?) ==> s.table == map[] && s.locked == {})
  {
    var s := trace[k];
    InitInv(n);
    RunInv(trace, moves, k);
    forall t: nat, t': nat, o | Holds(s, t, o) && Holds(s, t', o) ensures t == t' {
      OneHolder(s, t, t', o);
    }
    forall t | 0 <= t < |s.pcs| ensures PcAgrees(s, s.pcs[t]) {
    }
    forall t | 0 <= t < |s.pcs| && s.pcs[t].Releasing? ensures s.pcs[t].m in s.locked {
      assert Locks(s.pcs[t], s.pcs[t].m);
    }
    forall m: Mutex | Count(s, m) > 0 ensures exists o :: o in s.table && s.table[o] == m {
      RefCountPositive(s.pcs, m);
      var t :| 0 <= t < |s.pcs| && RefsTo(s.pcs[t], m);
      assert s.pcs[t].o in s.table;
    }
    if forall t :: 0 <= t < |s.pcs| ==> s.pcs[t].Idle? {
      QuiescentIsEmpty(s);
    }
  }

  lemma QuiescentIsEmpty(s: State)
    requires Inv(s) && forall t :: 0 <= t < |s.pcs| ==> s.pcs[t].Idle?
    ensures s.table == map[] && s.locked == {}
  {
    forall o ensures o !in s.table {
      if o in s.table {
        RefCountPositive(s.pcs, s.table[o]);
      }
    }
  }

  /** No deadlock: while some thread is inside LockOrder, the critical section or UnlockOrder, some such
      thread can move. */
  lemma SomeStepEnabled(s: State, o: Order, t: nat) returns (u: nat)
    requires Inv(s) && t < |s.pcs| && !s.pcs[t].Idle?
    ensures u < |s.pcs| && !s.pcs[u].Idle? && Step(s, u, o).Some?
  {
    if s.create.Some? {
      u := s.create.value;
    } else if s.pcs[t].Waiting? && s.pcs[t].m in s.locked {
      u :| 0 <= u < |s.pcs| && Locks(s.pcs[u], s.pcs[t].m);
    } else {
      u := t;
    }
  }

  // ---------------------------------------------------------------- every call completes

  function Rank(pc: Pc): nat {
    match pc
    case Idle => 0
    case Finishing => 1
    case Deleting(_, _) => 2
    case Dropping(_, _) => 3
    case WantDrop(_, _) => 4
    case Releasing(_, _, _) => 5
    case Holding(_, _) => 6
    case Waiting(_, _) => 7
    case Leaving(_, _) => 8
    case Counting(_, _) => 9
    case Storing(_) => 10
    case Loading(_) => 11
    case WantCreate(_) => 12
  }

  function Work(pcs: seq<Pc>): nat {
    if pcs == [] then 0 else Work(pcs[..|pcs| - 1]) + Rank(pcs[|pcs| - 1])
  }

  lemma {:induction false} WorkUpdate(pcs: seq<Pc>, t: nat, pc: Pc)
    requires t < |pcs|
    ensures Work(pcs[t := pc]) == Work(pcs) - Rank(pcs[t]) + Rank(pc)
  {
    var k := |pcs| - 1;
    if t == k {
      assert pcs[t := pc][..k] == pcs[..k];
    } else {
      assert pcs[t := pc][..k] == pcs[..k][t := pc];
      WorkUpdate(pcs[..k], t, pc);
    }
  }

  lemma StepWorks(s: State, t: nat, o: Order, s': State)
    requires t < |s.pcs| && PcsOk(s) && LocksOk(s) && Step(s, t, o) == Some(s') && !s.pcs[t].Idle?
    ensures Work(s'.pcs) < Work(s.pcs)
  {
    assert PcAgrees(s, s.pcs[t]);
    assert s.pcs[t].Releasing? ==> Locks(s.pcs[t], s.pcs[t].m);
    WorkUpdate(s.pcs, t, s'.pcs[t]);
    assert s'.pcs == s.pcs[t := s'.pcs[t]];
  }

  /** Nobody starts a new LockOrder. */
  ghost predicate OnlyPendingCalls(trace: seq<State>, moves: seq<(nat, Order)>)
    requires IsRun(trace, moves)
  {
    forall i :: 0 <= i < |moves| ==> !trace[i].pcs[moves[i].0].Idle?
  }

  /** No thread that is inside a call can move. */
  ghost predicate Stuck(s: State) {
    forall t: nat, o :: t < |s.pcs| && !s.pcs[t].Idle? ==> Step(s, t, o).None?
  }

  lemma {:induction false} CallsBounded(trace: seq<State>, moves: seq<(nat, Order)>, k: nat)
    requires IsRun(trace, moves) && Inv(trace[0]) && OnlyPendingCalls(trace, moves) && k <= |moves|
    ensures k + Work(trace[k].pcs) <= Work(trace[0].pcs)
  {
    if k > 0 {
      var i := k - 1;
      CallsBounded(trace, moves, i);
      RunInv(trace, moves, i);
      assert Step(trace[i], moves[i].0, moves[i].1) == Some(trace[i + 1]);
      StepWorks(trace[i], moves[i].0, moves[i].1, trace[k]);
    }
  }

  lemma StuckIsDone(s: State)
    requires Inv(s) && Stuck(s)
    ensures s.table == map[] && forall t :: 0 <= t < |s.pcs| ==> s.pcs[t].Idle?
  {
    forall t | 0 <= t < |s.pcs| ensures s.pcs[t].Idle? {
      if !s.pcs[t].Idle? {
        var u := SomeStepEnabled(s, "", t);
      }
    }
    QuiescentIsEmpty(s);
  }

  /** EVERY CALL COMPLETES. A schedule in which no thread starts a new LockOrder takes at most the work
      left (twelve steps per call), and when it cannot be continued every call has returned and the
      table is empty. */
  lemma CallsComplete(n: nat, trace: seq<State>, moves: seq<(nat, Order)>, k: nat, last: nat)
    requires IsRun(trace, moves) && trace[0] == Init(n) && k <= last == |moves|
    requires OnlyPendingCalls(trace[k..], moves[k..])
    ensures |moves[k..]| + Work(trace[last].pcs) <= Work(trace[k].pcs)
    ensures Stuck(trace[last]) ==>
              trace[last].table == map[] && forall t :: 0 <= t < |trace[last].pcs| ==> trace[last].pcs[t].Idle?
  {
    InitInv(n);
    RunInv(trace, moves, k);
    RunInv(trace, moves, last);
    CallsBounded(trace[k..], moves[k..], |moves[k..]|);
    if Stuck(trace[last]) {
      StuckIsDone(trace[last]);
    }
  }
}
