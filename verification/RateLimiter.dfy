/** The in-memory sliding-window rate limiter of common/rate-limit.go, against the full log of accepted
    requests. */
module RateLimiter {

  const NANOS_PER_SECOND := 1_000_000_000

  /** store, expirationDuration (nanoseconds) and lastCleanup; a nil store is an empty one. */
  datatype Limiter = Limiter(store: map<string, seq<int>>, expiration: int, lastCleanup: int)

  /** The limits each key is always called with. */
  datatype Config = Config(max: string -> nat, duration: string -> int, expiration: int)

  /** One call: the clock as deleteExpiredItemsLocked reads it, and as Request reads it afterwards. */
  datatype Event = Event(key: string, cleanNow: int, now: int)

  function Seconds(nanos: int): int {
    nanos / NANOS_PER_SECOND
  }

  predicate Stale(queue: seq<int>, now: int, seconds: int) {
    queue == [] || now - queue[|queue| - 1] > seconds
  }

  predicate CleanupDue(l: Limiter, now: int) {
    l.expiration > 0 && !(l.lastCleanup > 0 && now - l.lastCleanup < Seconds(l.expiration))
  }

  function Cleaned(l: Limiter, now: int): Limiter {
    if !CleanupDue(l, now) then l
    else
      var store := map k | k in l.store && !Stale(l.store[k], now, Seconds(l.expiration)) :: l.store[k];
      Limiter(store, l.expiration, now)
  }

  /** Appending to an existing queue, when it has room or its oldest entry has left the window. */
  function Admitted(queue: seq<int>, max: nat, duration: int, now: int): seq<int>
    requires queue != []
  {
    if |queue| < max then queue + [now]
    else if now - queue[0] >= duration then queue[1..] + [now]
    else queue
  }

  predicate Admits(queue: seq<int>, max: nat, duration: int, now: int)
    requires queue != []
  {
    |queue| < max || now - queue[0] >= duration
  }

  predicate Valid(l: Limiter) {
    forall k :: k in l.store ==> l.store[k] != []
  }

  function Accepts(l: Limiter, e: Event, max: nat, duration: int): bool
    requires Valid(l)
  {
    var l' := Cleaned(l, e.cleanNow);
    e.key in l'.store ==> Admits(l'.store[e.key], max, duration, e.now)
  }

  function Requested(l: Limiter, e: Event, max: nat, duration: int): (r: Limiter)
    requires Valid(l)
    ensures Valid(r)
  {
    var l' := Cleaned(l, e.cleanNow);
    var queue := if e.key in l'.store then Admitted(l'.store[e.key], max, duration, e.now) else [e.now];
    l'.(store := l'.store[e.key := queue])
  }

  // ---------------------------------------------------------------- the object

  class InMemoryRateLimiter {
    var store: map<string, seq<int>>
    var expiration: int
    var lastCleanup: int

    ghost function Value(): Limiter
      reads this
    {
      Limiter(store, expiration, lastCleanup)
    }

    constructor ()
      ensures Value() == Limiter(map[], 0, 0)
    {
      store, expiration, lastCleanup := map[], 0, 0;
    }

    method Init(expirationDuration: int)
      modifies this
      ensures Value() == old(Value()).(expiration := expirationDuration)
    {
      expiration := expirationDuration;
    }

    method DeleteExpired(now: int)
      modifies this
      ensures Value() == Cleaned(old(Value()), now)
    {
      if expiration <= 0 || (lastCleanup > 0 && now - lastCleanup < Seconds(expiration)) {
        return;
      }
      lastCleanup := now;
      var seconds := Seconds(expiration);
      var todo := store.Keys;
      while todo != {}
        invariant expiration == old(expiration) && lastCleanup == now
        invariant todo <= store.Keys <= old(store).Keys
        invariant forall k :: k in store ==> store[k] == old(store)[k]
        invariant forall k :: k in old(store) && k !in todo ==> (k in store <==> !Stale(old(store)[k], now, seconds))
        decreases todo
      {
        var key :| key in todo;
        todo := todo - {key};
        var queue := store[key];
        if |queue| == 0 || now - queue[|queue| - 1] > seconds {
          store := store - {key};
        }
      }
      assert store == map k | k in old(store) && !Stale(old(store)[k], now, seconds) :: old(store)[k];
    }

    method Request(key: string, max: nat, duration: int, cleanNow: int, now: int) returns (ok: bool)
      requires Valid(Value())
      modifies this
      ensures Value() == Requested(old(Value()), Event(key, cleanNow, now), max, duration)
      ensures ok == Accepts(old(Value()), Event(key, cleanNow, now), max, duration)
    {
      DeleteExpired(cleanNow);
      if key in store {
        var queue := store[key];
        if |queue| < max {
          store := store[key := queue + [now]];
          return true;
        } else if now - queue[0] >= duration {
          store := store[key := queue[1..] + [now]];
          return true;
        } else {
          assert store[key := queue] == store;
          return false;
        }
      }
      store := store[key := [now]];
      return true;
    }
  }

  // ---------------------------------------------------------------- the reference: a key's full log

  /** How many accepted requests are younger than the window. */
  function Young(log: seq<int>, now: int, duration: int): nat {
    if log == [] then 0
    else Young(log[..|log| - 1], now, duration) + if now - log[|log| - 1] < duration then 1 else 0
  }

  predicate RefAccepts(log: seq<int>, now: int, max: nat, duration: int) {
    Young(log, now, duration) < max
  }

  function Logged(log: seq<int>, now: int, accepted: bool): seq<int> {
    if accepted then log + [now] else log
  }

  /** The limiter after a call in a run. */
  function After(cfg: Config, l: Limiter, e: Event): (r: Limiter)
    requires Valid(l)
    ensures Valid(r)
  {
    Requested(l, e, cfg.max(e.key), cfg.duration(e.key))
  }

  /** What the limiter answers to the calls for one key, in a run with calls for any keys. */
  function Verdicts(cfg: Config, l: Limiter, events: seq<Event>, key: string): seq<bool>
    requires Valid(l)
    decreases |events|
  {
    if events == [] then []
    else
      var e := events[0];
      (if e.key == key then [Accepts(l, e, cfg.max(key), cfg.duration(key))] else [])
      + Verdicts(cfg, After(cfg, l, e), events[1..], key)
  }

  /** What the key's full log answers. */
  function RefVerdicts(cfg: Config, log: seq<int>, events: seq<Event>, key: string): seq<bool>
    decreases |events|
  {
    if events == [] then []
    else if events[0].key != key then RefVerdicts(cfg, log, events[1..], key)
    else
      var now := events[0].now;
      var ok := RefAccepts(log, now, cfg.max(key), cfg.duration(key));
      [ok] + RefVerdicts(cfg, Logged(log, now, ok), events[1..], key)
  }

  /** The acceptances of the limiter for the key, added to a log. */
  function AcceptedLog(cfg: Config, l: Limiter, log: seq<int>, events: seq<Event>, key: string): seq<int>
    requires Valid(l)
    decreases |events|
  {
    if events == [] then log
    else
      var e := events[0];
      var ok := e.key == key && Accepts(l, e, cfg.max(key), cfg.duration(key));
      AcceptedLog(cfg, After(cfg, l, e), Logged(log, e.now, ok), events[1..], key)
  }

  /** The clock never goes back. */
  predicate Monotone(start: int, events: seq<Event>)
    decreases |events|
  {
    events == [] || (start <= events[0].cleanNow <= events[0].now && Monotone(events[0].now, events[1..]))
  }

  // ---------------------------------------------------------------- counting young entries

  predicate Sorted(log: seq<int>) {
    forall i, j :: 0 <= i < j < |log| ==> log[i] <= log[j]
  }

  predicate Until(log: seq<int>, t: int) {
    forall i :: 0 <= i < |log| ==> log[i] <= t
  }

  lemma SortedSnoc(log: seq<int>, t: int, now: int)
    requires Sorted(log) && Until(log, t) && t <= now
    ensures Sorted(log + [now]) && Until(log + [now], now)
  {
  }

  lemma {:induction false} YoungSplit(log: seq<int>, i: nat, now: int, duration: int)
    requires i <= |log|
    ensures Young(log, now, duration) == Young(log[..i], now, duration) + Young(log[i..], now, duration)
  {
    if i == |log| {
      assert log[..i] == log;
    } else {
      var k := |log| - 1;
      YoungSplit(log[..k], i, now, duration);
      assert log[..k][..i] == log[..i] && log[i..][..|log[i..]| - 1] == log[..k][i..];
    }
  }

  lemma {:induction false} YoungBounds(log: seq<int>, now: int, duration: int)
    ensures Young(log, now, duration) <= |log|
    ensures Young(log, now, duration) == |log| <==> forall i :: 0 <= i < |log| ==> now - log[i] < duration
    ensures Young(log, now, duration) == 0 <==> forall i :: 0 <= i < |log| ==> now - log[i] >= duration
  {
    if log != [] {
      YoungBounds(log[..|log| - 1], now, duration);
      assert forall i :: 0 <= i < |log| - 1 ==> log[..|log| - 1][i] == log[i];
    }
  }

  /** The code's test on the queue is the test on the log. */
  lemma QueueDecides(log: seq<int>, queue: seq<int>, max: nat, now: int, duration: int)
    requires Sorted(log) && 0 < |queue| <= |log| && queue == log[|log| - |queue|..] && |queue| <= max
    requires forall i :: 0 <= i < |log| - |queue| ==> now - log[i] >= duration
    ensures Admits(queue, max, duration, now) <==> Young(log, now, duration) < max
  {
    var d := |log| - |queue|;
    assert Young(log, now, duration) == Young(queue, now, duration) by {
      YoungSplit(log, d, now, duration);
      YoungBounds(log[..d], now, duration);
    }
    YoungBounds(queue, now, duration);
    if now - queue[0] < duration {
      forall i | 0 <= i < |queue| ensures now - queue[i] < duration {
        assert i > 0 ==> log[d] <= log[d + i];
      }
    }
  }

  // ---------------------------------------------------------------- the simulation

  function QueueOf(l: Limiter, key: string): seq<int> {
    if key in l.store then l.store[key] else []
  }

  predicate SuffixOk(full: seq<int>, queue: seq<int>, max: nat, duration: int, t: int) {
    && Sorted(full) && Until(full, t)
    && |queue| <= |full| && queue == full[|full| - |queue|..]
    && |queue| <= max
    && forall i :: 0 <= i < |full| - |queue| ==> t - full[i] >= duration
  }

  /** The key's queue is a suffix of its log, and everything dropped from it has left the window for good. */
  ghost predicate Simulates(cfg: Config, l: Limiter, log: seq<int>, t: int, key: string) {
    && Valid(l) && l.expiration == cfg.expiration
    && SuffixOk(log, QueueOf(l, key), cfg.max(key), cfg.duration(key), t)
  }

  /** At least one request allowed, and a window at most one second longer than what eviction waits for. */
  predicate KeyExact(cfg: Config, key: string) {
    cfg.max(key) >= 1 && (cfg.expiration <= 0 || cfg.duration(key) <= Seconds(cfg.expiration) + 1)
  }

  /** In nanoseconds. */
  lemma KeyExactIff(cfg: Config, key: string)
    ensures KeyExact(cfg, key) <==>
            cfg.max(key) >= 1 && (cfg.expiration <= 0 || (cfg.duration(key) - 1) * 1_000_000_000 <= cfg.expiration)
  {
  }

  lemma CleanKeeps(cfg: Config, l: Limiter, log: seq<int>, t: int, now: int, key: string)
    requires Simulates(cfg, l, log, t, key) && t <= now && KeyExact(cfg, key)
    ensures Simulates(cfg, Cleaned(l, now), log, now, key)
  {
    var l' := Cleaned(l, now);
    if key in l.store && key !in l'.store {
      var queue := l.store[key];
      assert log[|log| - 1] == queue[|queue| - 1];
    }
  }

  /** A call for another key does to this one no more than its clean-up does. */
  lemma OtherKeeps(cfg: Config, l: Limiter, log: seq<int>, t: int, e: Event, key: string)
    requires Simulates(cfg, l, log, t, key) && t <= e.cleanNow <= e.now && KeyExact(cfg, key) && e.key != key
    ensures Simulates(cfg, After(cfg, l, e), log, e.now, key)
  {
    CleanKeeps(cfg, l, log, t, e.cleanNow, key);
    assert QueueOf(After(cfg, l, e), key) == QueueOf(Cleaned(l, e.cleanNow), key);
  }

  lemma RequestKeeps(cfg: Config, l: Limiter, log: seq<int>, t: int, e: Event)
    requires Simulates(cfg, l, log, t, e.key) && t <= e.cleanNow <= e.now && KeyExact(cfg, e.key)
    ensures var max, duration := cfg.max(e.key), cfg.duration(e.key);
            var ok := Accepts(l, e, max, duration);
            ok == RefAccepts(log, e.now, max, duration) &&
            Simulates(cfg, After(cfg, l, e), Logged(log, e.now, ok), e.now, e.key)
  {
    var max, duration := cfg.max(e.key), cfg.duration(e.key);
    var l' := Cleaned(l, e.cleanNow);
    CleanKeeps(cfg, l, log, t, e.cleanNow, e.key);
    if e.key in l'.store {
      QueueDecides(log, l'.store[e.key], max, e.now, duration);
    } else {
      YoungBounds(log, e.now, duration);
    }
    AppendSuffix(log, QueueOf(l', e.key), max, duration, e.cleanNow, e.now);
  }

  lemma AppendSuffix(full: seq<int>, queue: seq<int>, max: nat, duration: int, t: int, now: int)
    requires SuffixOk(full, queue, max, duration, t) && t <= now && max >= 1
    ensures SuffixOk(full, queue, max, duration, now)
    ensures |queue| < max ==> SuffixOk(full + [now], queue + [now], max, duration, now)
    ensures queue != [] && now - queue[0] >= duration ==> SuffixOk(full + [now], queue[1..] + [now], max, duration, now)
  {
    var d := |full| - |queue|;
    SortedSnoc(full, t, now);
    assert queue + [now] == (full + [now])[d..];
    if queue != [] {
      assert queue[0] == full[d];
      assert queue[1..] + [now] == (full + [now])[d + 1..];
    }
  }

  lemma {:induction false} RunsAgree(cfg: Config, l: Limiter, log: seq<int>, t: int, events: seq<Event>, key: string)
    requires Simulates(cfg, l, log, t, key) && Monotone(t, events) && KeyExact(cfg, key)
    ensures Verdicts(cfg, l, events, key) == RefVerdicts(cfg, log, events, key)
    decreases |events|
  {
    if events != [] {
      var e := events[0];
      if e.key == key {
        RequestKeeps(cfg, l, log, t, e);
        var ok := Accepts(l, e, cfg.max(key), cfg.duration(key));
        RunsAgree(cfg, After(cfg, l, e), Logged(log, e.now, ok), e.now, events[1..], key);
      } else {
        OtherKeeps(cfg, l, log, t, e, key);
        RunsAgree(cfg, After(cfg, l, e), log, e.now, events[1..], key);
      }
    }
  }

  // ---------------------------------------------------------------- when it is exact

  function Fresh(cfg: Config): Limiter {
    Limiter(map[], cfg.expiration, 0)
  }

  ghost predicate ExactOnAllRuns(cfg: Config, key: string) {
    forall start, events :: Monotone(start, events) ==>
      Verdicts(cfg, Fresh(cfg), events, key) == RefVerdicts(cfg, [], events, key)
  }

  /** THE LIMITER IS EXACT, key by key. Over every sequence of calls for any keys with a clock that never goes back,
      a call for this key is accepted exactly when fewer than max logged acceptances of the key are younger
      than its duration, if and only if the key allows at least one request and its window is at most one
      second longer than the eviction delay. What the other keys allow does not matter. */
  lemma ExactIff(cfg: Config, key: string)
    ensures ExactOnAllRuns(cfg, key) <==>
            cfg.max(key) >= 1 && (cfg.expiration <= 0 || (cfg.duration(key) - 1) * 1_000_000_000 <= cfg.expiration)
  {
    KeyExactIff(cfg, key);
    if KeyExact(cfg, key) {
      forall start, events | Monotone(start, events)
        ensures Verdicts(cfg, Fresh(cfg), events, key) == RefVerdicts(cfg, [], events, key)
      {
        RunsAgree(cfg, Fresh(cfg), [], start, events, key);
      }
    } else {
      InexactRun(cfg, key);
    }
  }

  /** The run that goes wrong: with max 0 the first call is let through; with a window longer than the
      eviction delay, fill the queue and come back when the key has just been evicted. */
  function Witness(key: string, left: nat, late: int): seq<Event> {
    if left == 0 then [Event(key, late, late)] else [Event(key, 1, 1)] + Witness(key, left - 1, late)
  }

  lemma {:induction false} WitnessMonotone(key: string, left: nat, late: int)
    requires late >= 1
    ensures Monotone(1, Witness(key, left, late))
  {
    if left > 0 {
      WitnessMonotone(key, left - 1, late);
    }
  }

  lemma InexactRun(cfg: Config, key: string)
    requires !KeyExact(cfg, key)
    ensures !ExactOnAllRuns(cfg, key)
  {
    if cfg.max(key) == 0 {
      var events := [Event(key, 1, 1)];
      assert Monotone(1, events);
      assert Verdicts(cfg, Fresh(cfg), events, key)[0] != RefVerdicts(cfg, [], events, key)[0];
    } else {
      var late := Seconds(cfg.expiration) + 2;
      WitnessMonotone(key, cfg.max(key), late);
      FillAndReturn(cfg, key, 0);
      assert Filled(cfg, key, 0) == Fresh(cfg) && Ones(0) == [];
    }
  }

  /** The limiter after n calls at time 1; the log is then n ones. */
  function Filled(cfg: Config, key: string, n: nat): Limiter {
    if n == 0 then Fresh(cfg)
    else Limiter(map[key := Ones(n)], cfg.expiration, 1)
  }

  function Ones(n: nat): seq<int> {
    seq(n, _ => 1)
  }

  lemma FillStep(cfg: Config, key: string, n: nat)
    requires cfg.expiration > 0 && n < cfg.max(key)
    ensures var e, max, duration := Event(key, 1, 1), cfg.max(key), cfg.duration(key);
            && Accepts(Filled(cfg, key, n), e, max, duration) && RefAccepts(Ones(n), 1, max, duration)
            && After(cfg, Filled(cfg, key, n), e) == Filled(cfg, key, n + 1)
            && Logged(Ones(n), 1, true) == Ones(n + 1)
  {
    var l := Filled(cfg, key, n);
    YoungBounds(Ones(n), 1, cfg.duration(key));
    assert Ones(n) + [1] == Ones(n + 1);
    assert n == 0 ==> [1] == Ones(n + 1);
    assert Cleaned(l, 1) == l.(lastCleanup := 1);
    assert After(cfg, l, Event(key, 1, 1)).store == map[key := Ones(n + 1)];
  }

  lemma LateStep(cfg: Config, key: string)
    requires cfg.expiration > 0 && cfg.duration(key) > Seconds(cfg.expiration) + 1 && cfg.max(key) >= 1
    ensures var late, max, duration := Seconds(cfg.expiration) + 2, cfg.max(key), cfg.duration(key);
            Accepts(Filled(cfg, key, max), Event(key, late, late), max, duration) &&
                !RefAccepts(Ones(max), late, max, duration)
  {
    var late, max := Seconds(cfg.expiration) + 2, cfg.max(key);
    assert Stale(Ones(max), late, Seconds(cfg.expiration));
    assert key !in Cleaned(Filled(cfg, key, max), late).store;
    YoungBounds(Ones(max), late, cfg.duration(key));
  }

  lemma VerdictsCons(cfg: Config, l: Limiter, log: seq<int>, e: Event, rest: seq<Event>)
    requires Valid(l)
    ensures Verdicts(cfg, l, [e] + rest, e.key) ==
            [Accepts(l, e, cfg.max(e.key), cfg.duration(e.key))] + Verdicts(cfg, After(cfg, l, e), rest, e.key)
    ensures var ok := RefAccepts(log, e.now, cfg.max(e.key), cfg.duration(e.key));
            RefVerdicts(cfg, log, [e] + rest, e.key) == [ok] + RefVerdicts(cfg, Logged(log, e.now, ok), rest, e.key)
  {
    assert ([e] + rest)[1..] == rest;
  }

  lemma {:induction false} FillAndReturn(cfg: Config, key: string, n: nat)
    requires cfg.expiration > 0 && cfg.duration(key) > Seconds(cfg.expiration) + 1 && n <= cfg.max(key) &&
             cfg.max(key) >= 1
    ensures var events := Witness(key, cfg.max(key) - n, Seconds(cfg.expiration) + 2);
            Verdicts(cfg, Filled(cfg, key, n), events, key) != RefVerdicts(cfg, Ones(n), events, key)
    decreases cfg.max(key) - n
  {
    var max, late := cfg.max(key), Seconds(cfg.expiration) + 2;
    var l := Filled(cfg, key, n);
    if n == max {
      LateStep(cfg, key);
      VerdictsCons(cfg, l, Ones(n), Event(key, late, late), []);
      assert Witness(key, max - n, late) == [Event(key, late, late)] + [];
      var events := Witness(key, 0, late);
      assert Verdicts(cfg, l, events, key)[0] != RefVerdicts(cfg, Ones(n), events, key)[0];
    } else {
      var rest := Witness(key, max - n - 1, late);
      FillStep(cfg, key, n);
      FillAndReturn(cfg, key, n + 1);
      VerdictsCons(cfg, l, Ones(n), Event(key, 1, 1), rest);
      assert ([true] + Verdicts(cfg, Filled(cfg, key, n + 1), rest, key))[1..] ==
          Verdicts(cfg, Filled(cfg, key, n + 1), rest, key);
      assert ([true] + RefVerdicts(cfg, Ones(n + 1), rest, key))[1..] == RefVerdicts(cfg, Ones(n + 1), rest, key);
    }
  }

  // ---------------------------------------------------------------- the rate itself

  ghost predicate Spaced(log: seq<int>, max: nat, duration: int, t: int) {
    && Sorted(log) && Until(log, t)
    && Windowed(log, max, duration)
  }

  /** Any max+1 consecutive entries span at least the duration. */
  ghost predicate Windowed(log: seq<int>, max: nat, duration: int) {
    forall i, j :: 0 <= i <= j < |log| && j - i == max ==> log[j] - log[i] >= duration
  }

  lemma LogSpaced(log: seq<int>, max: nat, duration: int, t: int, now: int)
    requires Spaced(log, max, duration, t) && t <= now && Young(log, now, duration) < max
    ensures Spaced(log + [now], max, duration, now)
  {
    SortedSnoc(log, t, now);
    var log' := log + [now];
    forall i, j | 0 <= i <= j < |log'| && j - i == max ensures log'[j] - log'[i] >= duration {
      if j == |log| {
        OldestLeft(log, i, now, duration, max);
      }
    }
  }

  /** With fewer than max young entries, the entry max places back has left the window. */
  lemma OldestLeft(log: seq<int>, i: nat, now: int, duration: int, max: nat)
    requires Sorted(log) && i + max == |log| && max >= 1 && Young(log, now, duration) < max
    ensures now - log[i] >= duration
  {
    YoungSplit(log, i, now, duration);
    YoungBounds(log[i..], now, duration);
    if now - log[i] < duration {
      forall k | 0 <= k < max ensures now - log[i..][k] < duration {
        assert k > 0 ==> log[i] <= log[i + k];
      }
    }
  }

  lemma {:induction false} WindowsRespected(
      cfg: Config, l: Limiter, log: seq<int>, t: int, events: seq<Event>, key: string)
    requires Simulates(cfg, l, log, t, key) && Monotone(t, events) && KeyExact(cfg, key)
    requires Spaced(log, cfg.max(key), cfg.duration(key), t)
    ensures Windowed(AcceptedLog(cfg, l, log, events, key), cfg.max(key), cfg.duration(key))
    decreases |events|
  {
    if events != [] {
      var e := events[0];
      var ok := e.key == key && Accepts(l, e, cfg.max(key), cfg.duration(key));
      if e.key == key {
        RequestKeeps(cfg, l, log, t, e);
        if ok {
          LogSpaced(log, cfg.max(key), cfg.duration(key), t, e.now);
        }
      } else {
        OtherKeeps(cfg, l, log, t, e, key);
      }
      WindowsRespected(cfg, After(cfg, l, e), Logged(log, e.now, ok), e.now, events[1..], key);
    }
  }

  /** THE RATE HOLDS. In every run with calls for any keys, any max+1 consecutive requests accepted for an exact key
      span at least the key's duration. */
  lemma RateHolds(cfg: Config, start: int, events: seq<Event>, key: string)
    requires Monotone(start, events) && KeyExact(cfg, key)
    ensures Windowed(AcceptedLog(cfg, Fresh(cfg), [], events, key), cfg.max(key), cfg.duration(key))
  {
    WindowsRespected(cfg, Fresh(cfg), [], start, events, key);
  }

  // ---------------------------------------------------------------- eviction bounds what is stored

  /** The limiter after a run. */
  function Ended(cfg: Config, l: Limiter, events: seq<Event>): (r: Limiter)
    requires Valid(l)
    ensures Valid(r)
    decreases |events|
  {
    if events == [] then l else Ended(cfg, After(cfg, l, events[0]), events[1..])
  }

  /** Every stored key was still fresh at the last sweep, or came later. */
  ghost predicate SweptTo(cfg: Config, l: Limiter, delay: int, t: int) {
    && Valid(l) && l.expiration == cfg.expiration && l.lastCleanup <= t
    && forall k :: k in l.store ==> l.store[k][|l.store[k]| - 1] >= l.lastCleanup - delay
  }

  /** A call sweeps iff none did before or the delay, in whole seconds, has passed since. */
  lemma SweepStep(cfg: Config, l: Limiter, t: int, e: Event, delay: nat)
    requires SweptTo(cfg, l, delay, t) && t <= e.cleanNow <= e.now
    requires 0 < cfg.expiration && delay * 1_000_000_000 <= cfg.expiration < (delay + 1) * 1_000_000_000
    ensures var last := After(cfg, l, e).lastCleanup;
            last == if l.lastCleanup <= 0 || e.cleanNow - l.lastCleanup >= delay then e.cleanNow else l.lastCleanup
    ensures SweptTo(cfg, After(cfg, l, e), delay, e.now)
  {
    assert Seconds(cfg.expiration) == delay;
  }

  lemma {:induction false} SweepRun(cfg: Config, l: Limiter, t: int, events: seq<Event>, delay: nat)
    requires SweptTo(cfg, l, delay, t) && Monotone(t, events) && events != []
    requires 0 < cfg.expiration && delay * 1_000_000_000 <= cfg.expiration < (delay + 1) * 1_000_000_000
    ensures var end, now := Ended(cfg, l, events), events[|events| - 1].cleanNow;
            && SweptTo(cfg, end, delay, events[|events| - 1].now)
            && (end.lastCleanup == now || now - end.lastCleanup < delay)
            && end.lastCleanup >= After(cfg, l, events[0]).lastCleanup
    decreases |events|
  {
    var l' := After(cfg, l, events[0]);
    SweepStep(cfg, l, t, events[0], delay);
    if |events| > 1 {
      SweepRun(cfg, l', events[0].now, events[1..], delay);
      assert events[1..][|events| - 2] == events[|events| - 1];
      SweepStep(cfg, l', events[0].now, events[1], delay);
    } else {
      assert Ended(cfg, l', events[1..]) == l';
    }
  }

  /** IDLE KEYS GO. After every run of calls a stored key was last accepted less than two eviction delays ago, or at
      most one, so a key nobody uses does not stay; and the last sweep is not older than the first call. */
  lemma IdleKeysGo(cfg: Config, start: nat, events: seq<Event>, delay: nat)
    requires Monotone(start, events) && events != []
    requires 0 < cfg.expiration && delay * 1_000_000_000 <= cfg.expiration < (delay + 1) * 1_000_000_000
    ensures var end, now := Ended(cfg, Fresh(cfg), events), events[|events| - 1].cleanNow;
            && (forall k :: k in end.store ==>
                  var idle := now - end.store[k][|end.store[k]| - 1]; idle < 2 * delay || idle <= delay)
            && end.lastCleanup >= events[0].cleanNow
  {
    SweepRun(cfg, Fresh(cfg), start, events, delay);
    SweepStep(cfg, Fresh(cfg), start, events[0], delay);
  }
}
