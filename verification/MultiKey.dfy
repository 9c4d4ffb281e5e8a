/** ManageMultiKeys (controller/channel.go): a channel's key list with three maps keyed by position, which
    deletions must re-index. */
module MultiKey {
  import opened Basics

  const ENABLED := 1
  const MANUALLY_DISABLED := 2
  const AUTO_DISABLED := 3

  /** The stored channel: keys, MultiKeySize, MultiKeyStatusList, MultiKeyDisabledTime, MultiKeyDisabledReason. */
  datatype Channel = Channel(
    keys: seq<string>, size: int, status: map<int, int>, time: map<int, int>, reason: map<int, string>)

  datatype Action =
    | DisableKey(index: Option<int>) | EnableKey(index: Option<int>) | EnableAllKeys | DisableAllKeys
    | DeleteKey(index: Option<int>) | DeleteDisabledKeys | Unsupported

  function StatusOf(c: Channel, i: int): int {
    if i in c.status then c.status[i] else ENABLED
  }

  /** KeyIndex given and below MultiKeySize. */
  predicate InRange(c: Channel, index: Option<int>) {
    index.Some? && 0 <= index.value < c.size
  }

  // ---------------------------------------------------------------- re-indexing

  function Put<T>(m: map<int, T>, j: int, from: map<int, T>, i: int): map<int, T> {
    if i in from then m[j := from[i]] else m
  }

  /** The rebuilt channel with key i of c appended under the next index. */
  function Extended(built: Channel, c: Channel, clearEnabled: bool, i: nat): Channel
    requires i < |c.keys|
  {
    var enabled := StatusOf(c, i) == ENABLED;
    Channel(built.keys + [c.keys[i]], built.size + 1,
            if enabled then built.status else Put(built.status, built.size, c.status, i),
            if clearEnabled && enabled then built.time else Put(built.time, built.size, c.time, i),
            if clearEnabled && enabled then built.reason else Put(built.reason, built.size, c.reason, i))
  }

  /** The lists both deletion branches have built after looking at the first n keys. */
  function Upto(c: Channel, drop: set<int>, clearEnabled: bool, n: nat): Channel
    requires n <= |c.keys|
  {
    if n == 0 then Channel([], 0, map[], map[], map[])
    else if n - 1 in drop then Upto(c, drop, clearEnabled, n - 1)
    else Extended(Upto(c, drop, clearEnabled, n - 1), c, clearEnabled, n - 1)
  }

  function Without(c: Channel, drop: set<int>, clearEnabled: bool): Channel {
    Upto(c, drop, clearEnabled, |c.keys|)
  }

  function Disabled(c: Channel): set<int> {
    set i | 0 <= i < |c.keys| && StatusOf(c, i) == AUTO_DISABLED
  }

  // ---------------------------------------------------------------- what is saved

  /** Channel.Update: an empty Key column is not written, the size is recounted, and status entries past
      the end are dropped. */
  function Saved(before: Channel, after: Channel): Channel {
    var keys := if after.keys == [] then before.keys else after.keys;
    after.(keys := keys, size := |keys|, status := map i | i in after.status && i < |keys| :: after.status[i])
  }

  /** What disable_all_keys writes for the keys below position n. */
  function Turned(c: Channel, n: int): map<int, int> {
    map i | 0 <= i < n && StatusOf(c, i) == ENABLED :: MANUALLY_DISABLED
  }

  /** The channel an action asks to save, or None when it is refused. */
  function Proposed(c: Channel, a: Action): Option<Channel> {
    match a
    case DisableKey(i) => if InRange(c, i) then Some(c.(status := c.status[i.value := MANUALLY_DISABLED])) else None
    case EnableKey(i) =>
      if InRange(c, i) then
        Some(c.(status := c.status - {i.value}, time := c.time - {i.value}, reason := c.reason - {i.value}))
      else None
    case EnableAllKeys => Some(c.(status := map[], time := map[], reason := map[]))
    case DisableAllKeys =>
      if Turned(c, c.size) == map[] then None else Some(c.(status := c.status + Turned(c, c.size)))
    case DeleteKey(i) =>
      if InRange(c, i) then
        var after := Without(c, {i.value}, false);
        if after.keys == [] then None else Some(after)
      else None
    case DeleteDisabledKeys => if Disabled(c) == {} then None else Some(Without(c, Disabled(c), true))
    case Unsupported => None
  }

  function Step(c: Channel, a: Action, saveOk: bool): Channel {
    var p := Proposed(c, a);
    if p.Some? && saveOk then Saved(c, p.value) else c
  }

  // ---------------------------------------------------------------- the object and its loops

  class MultiKeyChannel {
    var stored: Channel

    constructor (c: Channel)
      ensures stored == c
    {
      stored := c;
    }

    /** Channel.Update writes the row and then the abilities, so a reported failure may have saved. */
    method Manage(a: Action, saveOk: bool, abilitiesOk: bool) returns (ok: bool)
      modifies this
      ensures stored == Step(old(stored), a, saveOk)
      ensures ok == (Proposed(old(stored), a).Some? && saveOk && abilitiesOk)
    {
      var c := stored;
      match a {
        case DisableKey(i) =>
          if !InRange(c, i) { return false; }
          c := c.(status := c.status[i.value := MANUALLY_DISABLED]);
        case EnableKey(i) =>
          if !InRange(c, i) { return false; }
          c := c.(status := c.status - {i.value}, time := c.time - {i.value}, reason := c.reason - {i.value});
        case EnableAllKeys =>
          c := c.(status := map[], time := map[], reason := map[]);
        case DisableAllKeys =>
          var status, disabled := DisableEnabled(c);
          if disabled == 0 { return false; }
          c := c.(status := status);
        case DeleteKey(i) =>
          if !InRange(c, i) { return false; }
          c := RemoveKey(c, i.value);
          if c.keys == [] { return false; }
        case DeleteDisabledKeys =>
          var deleted;
          c, deleted := RemoveDisabled(c);
          if deleted == 0 { return false; }
        case Unsupported =>
          return false;
      }
      if saveOk {
        stored := Saved(stored, c);
      }
      ok := saveOk && abilitiesOk;
    }
  }

  /** The loop of disable_all_keys. */
  method DisableEnabled(c: Channel) returns (status: map<int, int>, disabled: nat)
    ensures status == c.status + Turned(c, c.size)
    ensures disabled == 0 <==> Turned(c, c.size) == map[]
  {
    status, disabled := c.status, 0;
    var i := 0;
    while i < c.size
      invariant if c.size < 0 then i == 0 else 0 <= i <= c.size
      invariant status == c.status + Turned(c, i)
      invariant disabled == 0 <==> Turned(c, i) == map[]
    {
      var s := if i in status then status[i] else ENABLED;
      TurnedStep(c, i);
      if s == ENABLED {
        status := status[i := MANUALLY_DISABLED];
        disabled := disabled + 1;
      }
      i := i + 1;
    }
    assert Turned(c, i) == Turned(c, c.size);
  }

  lemma TurnedStep(c: Channel, i: nat)
    ensures i !in Turned(c, i)
    ensures Turned(c, i + 1) == if StatusOf(c, i) == ENABLED then Turned(c, i)[i := MANUALLY_DISABLED] else Turned(c, i)
    ensures StatusOf(c, i) == ENABLED ==> Turned(c, i + 1) != map[]
  {
    if StatusOf(c, i) == ENABLED {
      assert i in Turned(c, i + 1);
    }
  }

  /** The loop of delete_key. */
  method RemoveKey(c: Channel, keyIndex: int) returns (after: Channel)
    ensures after == Without(c, {keyIndex}, false)
  {
    var keys: seq<string> := [];
    var status, time, reason := map[], map[], map[];
    var newIndex := 0;
    for i := 0 to |c.keys|
      invariant newIndex == |keys| && Channel(keys, newIndex, status, time, reason) == Upto(c, {keyIndex}, false, i)
    {
      if i != keyIndex {
        keys := keys + [c.keys[i]];
        if i in c.status && c.status[i] != ENABLED {
          status := status[newIndex := c.status[i]];
        }
        if i in c.time {
          time := time[newIndex := c.time[i]];
        }
        if i in c.reason {
          reason := reason[newIndex := c.reason[i]];
        }
        newIndex := newIndex + 1;
      }
    }
    after := Channel(keys, |keys|, status, time, reason);
  }

  /** The loop of delete_disabled_keys. */
  method RemoveDisabled(c: Channel) returns (after: Channel, deleted: nat)
    ensures after == Without(c, Disabled(c), true)
    ensures deleted == |c.keys| - |after.keys| && (deleted == 0 <==> Disabled(c) == {})
  {
    var keys: seq<string> := [];
    var status, time, reason := map[], map[], map[];
    var newIndex := 0;
    deleted := 0;
    for i := 0 to |c.keys|
      invariant newIndex == |keys| && Channel(keys, newIndex, status, time, reason) == Upto(c, Disabled(c), true, i)
      invariant deleted == i - newIndex &&
                (deleted == 0 <==> forall j :: 0 <= j < i ==> StatusOf(c, j) != AUTO_DISABLED)
    {
      var s := StatusOf(c, i);
      if s == AUTO_DISABLED {
        deleted := deleted + 1;
      } else {
        keys := keys + [c.keys[i]];
        if s != ENABLED {
          status := status[newIndex := s];
          if i in c.time {
            time := time[newIndex := c.time[i]];
          }
          if i in c.reason {
            reason := reason[newIndex := c.reason[i]];
          }
        }
        newIndex := newIndex + 1;
      }
    }
    DisabledEmpty(c);
    after := Channel(keys, |keys|, status, time, reason);
  }

  lemma DisabledEmpty(c: Channel)
    ensures Disabled(c) == {} <==> forall j :: 0 <= j < |c.keys| ==> StatusOf(c, j) != AUTO_DISABLED
  {
    forall j | 0 <= j < |c.keys| && StatusOf(c, j) == AUTO_DISABLED ensures Disabled(c) != {} {
      assert j in Disabled(c);
    }
  }

  // ---------------------------------------------------------------- the reference: one record per key

  datatype Rec = Rec(key: string, status: int, time: Option<int>, reason: Option<string>)

  function Get<T>(m: map<int, T>, i: int): Option<T> {
    if i in m then Some(m[i]) else None
  }

  function RecAt(c: Channel, i: nat): Rec
    requires i < |c.keys|
  {
    Rec(c.keys[i], StatusOf(c, i), Get(c.time, i), Get(c.reason, i))
  }

  function Recs(c: Channel): seq<Rec> {
    seq(|c.keys|, i requires 0 <= i < |c.keys| => RecAt(c, i))
  }

  function Renewed(r: Rec): Rec {
    Rec(r.key, ENABLED, None, None)
  }

  /** The records below position n whose status is not 3, in order. */
  function AliveTo(recs: seq<Rec>, n: nat): seq<Rec>
    requires n <= |recs|
  {
    if n == 0 then []
    else AliveTo(recs, n - 1) + if recs[n - 1].status == AUTO_DISABLED then [] else [recs[n - 1]]
  }

  function Alive(recs: seq<Rec>): seq<Rec> {
    AliveTo(recs, |recs|)
  }

  /** Disabled time and reason are only shown for keys that are not enabled. */
  function View(r: Rec): Rec {
    if r.status == ENABLED then Renewed(r) else r
  }

  function RenewAll(recs: seq<Rec>): seq<Rec> {
    seq(|recs|, i requires 0 <= i < |recs| => Renewed(recs[i]))
  }

  function ViewAll(recs: seq<Rec>): seq<Rec> {
    seq(|recs|, i requires 0 <= i < |recs| => View(recs[i]))
  }

  function DisableAll(recs: seq<Rec>): seq<Rec> {
    seq(|recs|, i requires 0 <= i < |recs| =>
      if recs[i].status == ENABLED then recs[i].(status := MANUALLY_DISABLED) else recs[i])
  }

  predicate Valid(recs: seq<Rec>, i: Option<int>) {
    i.Some? && 0 <= i.value < |recs|
  }

  predicate AllDisabled(recs: seq<Rec>) {
    recs != [] && forall i :: 0 <= i < |recs| ==> recs[i].status == AUTO_DISABLED
  }

  /** delete_key, on records: the last key is never deleted. */
  function Dropped(recs: seq<Rec>, i: nat): seq<Rec>
    requires i < |recs|
  {
    if |recs| > 1 then recs[..i] + recs[i + 1..] else recs
  }

  /** delete_disabled_keys, on records. */
  function Purged(recs: seq<Rec>): seq<Rec> {
    if Alive(recs) == recs then recs
    else if AllDisabled(recs) then RenewAll(recs)
    else ViewAll(Alive(recs))
  }

  /** Every action, on records. */
  function RefStep(recs: seq<Rec>, a: Action): seq<Rec> {
    match a
    case DisableKey(i) => if Valid(recs, i) then recs[i.value := recs[i.value].(status := MANUALLY_DISABLED)] else recs
    case EnableKey(i) => if Valid(recs, i) then recs[i.value := Renewed(recs[i.value])] else recs
    case EnableAllKeys => RenewAll(recs)
    case DisableAllKeys => DisableAll(recs)
    case DeleteKey(i) => if Valid(recs, i) then Dropped(recs, i.value) else recs
    case DeleteDisabledKeys => Purged(recs)
    case Unsupported => recs
  }

  /** MultiKeySize is the number of keys and every index in the maps is one of theirs. */
  ghost predicate WellIndexed(c: Channel) {
    && c.size == |c.keys|
    && (forall i :: i in c.status ==> 0 <= i < c.size)
    && (forall i :: i in c.time ==> 0 <= i < c.size)
    && (forall i :: i in c.reason ==> 0 <= i < c.size)
  }

  // ---------------------------------------------------------------- refinement, action by action

  /** Appending key i appends its record. */
  lemma ExtendedRecs(built: Channel, c: Channel, clearEnabled: bool, i: nat)
    requires WellIndexed(built) && i < |c.keys|
    ensures var e := Extended(built, c, clearEnabled, i);
            WellIndexed(e) && Recs(e) == Recs(built) + [if clearEnabled then View(RecAt(c, i)) else RecAt(c, i)]
  {
    var e := Extended(built, c, clearEnabled, i);
    forall j: nat | j < |built.keys| ensures RecAt(e, j) == RecAt(built, j) {
    }
  }

  /** The first n records without the one at position i. */
  function Skipping(recs: seq<Rec>, i: nat, n: nat): seq<Rec>
    requires i < |recs| && n <= |recs|
  {
    if i < n then recs[..i] + recs[i + 1..n] else recs[..n]
  }

  lemma SkippingStep(recs: seq<Rec>, i: nat, n: nat)
    requires i < |recs| && n < |recs|
    ensures Skipping(recs, i, n + 1) == Skipping(recs, i, n) + if n == i then [] else [recs[n]]
  {
  }

  lemma {:induction false} UptoOne(c: Channel, i: nat, n: nat)
    requires i < |c.keys| && n <= |c.keys|
    ensures WellIndexed(Upto(c, {i}, false, n))
    ensures Recs(Upto(c, {i}, false, n)) == Skipping(Recs(c), i, n)
  {
    if n > 0 {
      UptoOne(c, i, n - 1);
      SkippingStep(Recs(c), i, n - 1);
      if n - 1 != i {
        ExtendedRecs(Upto(c, {i}, false, n - 1), c, false, n - 1);
      }
    }
  }

  lemma ViewSnoc(recs: seq<Rec>, r: Rec)
    ensures ViewAll(recs + [r]) == ViewAll(recs) + [View(r)]
  {
  }

  lemma {:induction false} UptoDisabled(c: Channel, n: nat)
    requires n <= |c.keys|
    ensures WellIndexed(Upto(c, Disabled(c), true, n))
    ensures Recs(Upto(c, Disabled(c), true, n)) == ViewAll(AliveTo(Recs(c), n))
  {
    if n > 0 {
      var i, recs := n - 1, Recs(c);
      var built := Upto(c, Disabled(c), true, i);
      UptoDisabled(c, i);
      assert recs[i] == RecAt(c, i);
      if i in Disabled(c) {
        assert Upto(c, Disabled(c), true, n) == built;
        assert AliveTo(recs, n) == AliveTo(recs, i);
      } else {
        assert Upto(c, Disabled(c), true, n) == Extended(built, c, true, i);
        ExtendedRecs(built, c, true, i);
        assert AliveTo(recs, n) == AliveTo(recs, i) + [recs[i]];
        ViewSnoc(AliveTo(recs, i), recs[i]);
      }
    }
  }

  lemma {:induction false} AliveFacts(recs: seq<Rec>, n: nat)
    requires n <= |recs|
    ensures |AliveTo(recs, n)| <= n
    ensures |AliveTo(recs, n)| == n ==> AliveTo(recs, n) == recs[..n]
    ensures |AliveTo(recs, n)| == n <==> forall i :: 0 <= i < n ==> recs[i].status != AUTO_DISABLED
    ensures |AliveTo(recs, n)| == 0 <==> forall i :: 0 <= i < n ==> recs[i].status == AUTO_DISABLED
  {
    if n > 0 {
      AliveFacts(recs, n - 1);
    }
  }

  lemma SavedAsIs(before: Channel, after: Channel)
    requires WellIndexed(after) && (after.keys == [] ==> before.keys == [])
    ensures Saved(before, after) == after
  {
  }

  lemma WithoutOne(c: Channel, i: nat)
    requires i < |c.keys|
    ensures WellIndexed(Without(c, {i}, false))
    ensures Recs(Without(c, {i}, false)) == Recs(c)[..i] + Recs(c)[i + 1..]
  {
    UptoOne(c, i, |c.keys|);
  }

  lemma DeleteKeyRefines(c: Channel, i: Option<int>)
    requires WellIndexed(c)
    ensures var c' := Step(c, DeleteKey(i), true);
            WellIndexed(c') && Recs(c') == RefStep(Recs(c), DeleteKey(i))
  {
    if InRange(c, i) {
      var after := Without(c, {i.value}, false);
      WithoutOne(c, i.value);
      assert |Recs(after)| == |after.keys| == |c.keys| - 1;
      if after.keys != [] {
        SavedAsIs(c, after);
      }
    }
  }

  lemma WithoutDisabled(c: Channel)
    ensures WellIndexed(Without(c, Disabled(c), true))
    ensures Recs(Without(c, Disabled(c), true)) == ViewAll(Alive(Recs(c)))
    ensures Disabled(c) == {} <==> Alive(Recs(c)) == Recs(c)
  {
    var recs := Recs(c);
    UptoDisabled(c, |c.keys|);
    DisabledEmpty(c);
    AliveFacts(recs, |recs|);
    assert recs[..|recs|] == recs;
    assert forall i :: 0 <= i < |recs| ==> recs[i].status == StatusOf(c, i);
  }

  /** Saving a channel with no keys left restores them, all enabled. */
  lemma SavedEmpty(before: Channel, after: Channel)
    requires WellIndexed(after) && after.keys == []
    ensures WellIndexed(Saved(before, after)) && Recs(Saved(before, after)) == RenewAll(Recs(before))
  {
    var saved := Saved(before, after);
    forall i: nat | i < |before.keys| ensures RecAt(saved, i) == Renewed(RecAt(before, i)) {
      assert i !in after.time && i !in after.reason && i !in after.status;
    }
  }

  lemma PurgedCases(recs: seq<Rec>)
    requires Alive(recs) != recs
    ensures Purged(recs) == if Alive(recs) == [] then RenewAll(recs) else ViewAll(Alive(recs))
  {
    AliveFacts(recs, |recs|);
  }

  lemma SavedPurge(c: Channel)
    requires Disabled(c) != {}
    ensures var saved := Saved(c, Without(c, Disabled(c), true));
            WellIndexed(saved) && Recs(saved) == Purged(Recs(c))
  {
    WithoutDisabled(c);
    var after := Without(c, Disabled(c), true);
    assert |after.keys| == |Recs(after)| == |Alive(Recs(c))|;
    PurgedCases(Recs(c));
    if after.keys == [] {
      SavedEmpty(c, after);
    } else {
      SavedAsIs(c, after);
    }
  }

  lemma DeleteDisabledRefines(c: Channel)
    requires WellIndexed(c)
    ensures var c' := Step(c, DeleteDisabledKeys, true);
            WellIndexed(c') && Recs(c') == RefStep(Recs(c), DeleteDisabledKeys)
  {
    if Disabled(c) == {} {
      WithoutDisabled(c);
    } else {
      SavedPurge(c);
    }
  }

  lemma DisableAllRefines(c: Channel)
    requires WellIndexed(c)
    ensures var c' := Step(c, DisableAllKeys, true);
            WellIndexed(c') && Recs(c') == RefStep(Recs(c), DisableAllKeys)
  {
    var turned := Turned(c, c.size);
    if turned == map[] {
      forall i: nat | i < |c.keys| ensures StatusOf(c, i) != ENABLED {
        assert i !in turned;
      }
    } else {
      SavedAsIs(c, c.(status := c.status + turned));
    }
  }

  lemma OneKeyRefines(c: Channel, a: Action)
    requires WellIndexed(c) && (a.DisableKey? || a.EnableKey?)
    ensures var c' := Step(c, a, true); WellIndexed(c') && Recs(c') == RefStep(Recs(c), a)
  {
    var p := Proposed(c, a);
    if p.Some? {
      assert WellIndexed(p.value);
      SavedAsIs(c, p.value);
    }
  }

  lemma EnableAllRefines(c: Channel)
    requires WellIndexed(c)
    ensures var c' := Step(c, EnableAllKeys, true);
            WellIndexed(c') && Recs(c') == RefStep(Recs(c), EnableAllKeys)
  {
    SavedAsIs(c, c.(status := map[], time := map[], reason := map[]));
  }

  /** EVERY ACTION acts on the records as specified and keeps the indices in range; a failed save changes
      nothing. */
  lemma ActionRefines(c: Channel, a: Action, saveOk: bool)
    requires WellIndexed(c)
    ensures var c' := Step(c, a, saveOk);
            WellIndexed(c') && Recs(c') == if saveOk then RefStep(Recs(c), a) else Recs(c)
  {
    if saveOk {
      match a {
        case DeleteKey(i) => DeleteKeyRefines(c, i);
        case DeleteDisabledKeys => DeleteDisabledRefines(c);
        case DisableAllKeys => DisableAllRefines(c);
        case EnableAllKeys => EnableAllRefines(c);
        case DisableKey(_) => OneKeyRefines(c, a);
        case EnableKey(_) => OneKeyRefines(c, a);
        case Unsupported =>
      }
    }
  }

  function Run(c: Channel, actions: seq<(Action, bool)>): Channel {
    if actions == [] then c
    else Step(Run(c, actions[..|actions| - 1]), actions[|actions| - 1].0, actions[|actions| - 1].1)
  }

  function RefRun(recs: seq<Rec>, actions: seq<(Action, bool)>): seq<Rec> {
    if actions == [] then recs
    else
      var prev := RefRun(recs, actions[..|actions| - 1]);
      if actions[|actions| - 1].1 then RefStep(prev, actions[|actions| - 1].0) else prev
  }

  /** Over every sequence of actions the channel is the list of records the reference says: each key keeps
      its own status, disabled time and reason through all re-indexing, and is never emptied out. */
  lemma {:induction false} RunRefines(c: Channel, actions: seq<(Action, bool)>)
    requires WellIndexed(c)
    ensures WellIndexed(Run(c, actions)) && Recs(Run(c, actions)) == RefRun(Recs(c), actions)
    ensures c.keys != [] ==> Run(c, actions).keys != []
  {
    if actions != [] {
      var last := actions[|actions| - 1];
      var prev := Run(c, actions[..|actions| - 1]);
      RunRefines(c, actions[..|actions| - 1]);
      ActionRefines(prev, last.0, last.1);
    }
  }

  // ---------------------------------------------------------------- bulk removal against one by one

  /** delete_key on every status-3 key below position n, highest first. */
  function DeleteDown(c: Channel, n: nat): Channel
    decreases n
  {
    if n == 0 then c
    else if StatusOf(c, n - 1) == AUTO_DISABLED then DeleteDown(Step(c, DeleteKey(Some(n - 1)), true), n - 1)
    else DeleteDown(c, n - 1)
  }

  function RefDown(recs: seq<Rec>, n: nat): seq<Rec>
    requires n <= |recs|
    decreases n
  {
    if n == 0 then recs
    else if recs[n - 1].status == AUTO_DISABLED then RefDown(Dropped(recs, n - 1), n - 1)
    else RefDown(recs, n - 1)
  }

  lemma {:induction false} DownRefines(c: Channel, n: nat)
    requires WellIndexed(c) && n <= |c.keys|
    ensures WellIndexed(DeleteDown(c, n)) && Recs(DeleteDown(c, n)) == RefDown(Recs(c), n)
    decreases n
  {
    if n > 0 {
      if StatusOf(c, n - 1) == AUTO_DISABLED {
        var c' := Step(c, DeleteKey(Some(n - 1)), true);
        assert WellIndexed(c') && Recs(c') == Dropped(Recs(c), n - 1) by {
          DeleteKeyRefines(c, Some(n - 1));
        }
        assert |Recs(c')| == |c'.keys|;
        DownRefines(c', n - 1);
      } else {
        DownRefines(c, n - 1);
      }
    }
  }

  ghost predicate Survives(recs: seq<Rec>) {
    exists i :: 0 <= i < |recs| && recs[i].status != AUTO_DISABLED
  }

  lemma {:induction false} AliveAgree(a: seq<Rec>, b: seq<Rec>, n: nat)
    requires n <= |a| && n <= |b| && a[..n] == b[..n]
    ensures AliveTo(a, n) == AliveTo(b, n)
  {
    if n > 0 {
      assert a[n - 1] == a[..n][n - 1] == b[n - 1];
      assert a[..n - 1] == a[..n][..n - 1] == b[..n - 1];
      AliveAgree(a, b, n - 1);
    }
  }

  lemma DroppedSurvives(recs: seq<Rec>, k: nat)
    requires k < |recs| && recs[k].status == AUTO_DISABLED && Survives(recs)
    ensures |recs| > 1 && Survives(Dropped(recs, k))
    ensures Dropped(recs, k)[..k] == recs[..k] && Dropped(recs, k)[k..] == recs[k + 1..]
  {
    var i :| 0 <= i < |recs| && recs[i].status != AUTO_DISABLED;
    assert Dropped(recs, k)[if i < k then i else i - 1] == recs[i];
  }

  lemma {:induction false} DownIsAlive(recs: seq<Rec>, n: nat)
    requires n <= |recs| && Survives(recs)
    ensures RefDown(recs, n) == AliveTo(recs, n) + recs[n..]
    decreases n
  {
    if n == 0 {
      assert recs[n..] == recs;
    } else {
      var k := n - 1;
      if recs[k].status == AUTO_DISABLED {
        DroppedSurvives(recs, k);
        DownIsAlive(Dropped(recs, k), k);
        AliveAgree(Dropped(recs, k), recs, k);
      } else {
        DownIsAlive(recs, k);
        assert recs[k..] == [recs[k]] + recs[n..];
      }
    }
  }

  lemma {:induction false} DownAllDisabled(recs: seq<Rec>, n: nat)
    requires AllDisabled(recs) && n <= |recs|
    ensures RefDown(recs, n) != [] && AllDisabled(RefDown(recs, n))
    decreases n
  {
    if n > 0 {
      DownAllDisabled(Dropped(recs, n - 1), n - 1);
    }
  }

  ghost predicate SameView(a: seq<Rec>, b: seq<Rec>) {
    ViewAll(a) == ViewAll(b)
  }

  lemma ViewTwice(recs: seq<Rec>)
    ensures ViewAll(ViewAll(recs)) == ViewAll(recs)
  {
  }

  lemma PurgedIsDown(recs: seq<Rec>)
    requires Survives(recs)
    ensures SameView(Purged(recs), RefDown(recs, |recs|))
  {
    DownIsAlive(recs, |recs|);
    assert recs[|recs|..] == [];
    ViewTwice(Alive(recs));
  }

  lemma PurgedIsNotDown(recs: seq<Rec>)
    requires AllDisabled(recs)
    ensures !SameView(Purged(recs), RefDown(recs, |recs|))
  {
    AliveFacts(recs, |recs|);
    DownAllDisabled(recs, |recs|);
    assert ViewAll(Purged(recs))[0].status == ENABLED;
    assert ViewAll(RefDown(recs, |recs|))[0].status == AUTO_DISABLED;
  }

  /** BULK IS ONE BY ONE. delete_disabled_keys leaves the same keys in the same order with the same statuses
      and the same shown times and reasons as deleting the status-3 keys one at a time from the top,
      exactly when some key survives or there is no key at all. */
  lemma BulkIsOneByOne(c: Channel)
    requires WellIndexed(c)
    ensures SameView(Recs(Step(c, DeleteDisabledKeys, true)), Recs(DeleteDown(c, |c.keys|))) <==>
            (c.keys == [] || exists i :: 0 <= i < |c.keys| && StatusOf(c, i) != AUTO_DISABLED)
  {
    var recs := Recs(c);
    DeleteDisabledRefines(c);
    DownRefines(c, |c.keys|);
    if i :| 0 <= i < |c.keys| && StatusOf(c, i) != AUTO_DISABLED {
      assert recs[i].status != AUTO_DISABLED;
      PurgedIsDown(recs);
    } else if c.keys != [] {
      PurgedIsNotDown(recs);
    }
  }

  /** When every key has status 3 the bulk action deletes none: the empty key list is not written, while the
      emptied status list is, so every key comes back enabled. */
  lemma BulkOnAllDisabledReenables(c: Channel)
    requires WellIndexed(c) && AllDisabled(Recs(c))
    ensures var c' := Step(c, DeleteDisabledKeys, true);
            c'.keys == c.keys && forall i :: 0 <= i < |c.keys| ==> StatusOf(c', i) == ENABLED
  {
    DeleteDisabledRefines(c);
    AliveFacts(Recs(c), |c.keys|);
    var c' := Step(c, DeleteDisabledKeys, true);
    forall i | 0 <= i < |c.keys| ensures c'.keys[i] == c.keys[i] && StatusOf(c', i) == ENABLED {
      assert Recs(c')[i] == Renewed(Recs(c)[i]);
    }
  }
}
