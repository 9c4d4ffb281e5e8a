/** Step-up verification in a session (controller/secure_verification.go, controller/passkey.go): which past
    events let a protected action through. */
module SecureVerification {
  import opened Basics

  const VERIFIED_FOR := 300
  const READY_FOR := 60
  const TWO_FA := "2fa"
  const PASSKEY := "passkey"

  /** secure_passkey_ready_at, secure_verified_at and secure_verified_method, in unix seconds. */
  datatype State = State(readyAt: Option<int>, verifiedAt: Option<int>, verifiedBy: Option<string>)

  /** PasskeyVerifyFinish; UniversalVerify with a valid code; UniversalVerify with a passkey, which looks at the
      clock when it consumes the marker and again when it records the result; a protected action. */
  datatype Event =
    | Finish(at: int)
    | TwoFactor(at: int)
    | Passkey(consumedAt: int, at: int)
    | Require(wanted: string, at: int)

  predicate Fresh(stamp: Option<int>, now: int, seconds: int) {
    stamp.Some? && now - stamp.value < seconds
  }

  /** Whether the event is answered positively. */
  predicate Accepts(s: State, e: Event) {
    match e
    case Finish(_) => true
    case TwoFactor(_) => true
    case Passkey(consumedAt, _) => Fresh(s.readyAt, consumedAt, READY_FOR)
    case Require(wanted, at) => Fresh(s.verifiedAt, at, VERIFIED_FOR) && s.verifiedBy == Some(wanted)
  }

  function Step(s: State, e: Event): State {
    match e
    case Finish(at) => State(Some(at), None, None)
    case TwoFactor(at) => State(None, Some(at), Some(TWO_FA))
    case Passkey(_, at) => if Accepts(s, e) then State(None, Some(at), Some(PASSKEY)) else s.(readyAt := None)
    case Require(_, at) =>
      if Fresh(s.verifiedAt, at, VERIFIED_FOR) then s else s.(verifiedAt := None, verifiedBy := None)
  }

  // ---------------------------------------------------------------- the session object

  class Session {
    var readyAt: Option<int>
    var verifiedAt: Option<int>
    var verifiedMethod: Option<string>

    function Abs(): State
      reads this
    {
      State.State(readyAt, verifiedAt, verifiedMethod)
    }

    constructor ()
      ensures Abs() == State.State(None, None, None)
    {
      readyAt, verifiedAt, verifiedMethod := None, None, None;
    }

    method PasskeyVerifyFinish(now: int)
      modifies this
      ensures Abs() == Step(old(Abs()), Finish(now))
    {
      readyAt := Some(now);
      verifiedAt := None;
      verifiedMethod := None;
    }

    method SetSecureVerificationSession(name: string, now: int)
      modifies this
      ensures Abs() == State.State(None, Some(now), Some(name))
    {
      readyAt := None;
      verifiedAt := Some(now);
      verifiedMethod := Some(name);
    }

    method ConsumePasskeyReady(now: int) returns (ok: bool)
      modifies this`readyAt
      ensures ok == Fresh(old(readyAt), now, READY_FOR) && readyAt == None
    {
      if readyAt.None? { return false; }
      var ready := readyAt.value;
      readyAt := None;
      if now - ready >= READY_FOR { return false; }
      ok := true;
    }

    /** UniversalVerify once the user may use the method; codeOk says whether a 2FA code is right. */
    method UniversalVerify(name: string, codeOk: bool, consumedAt: int, now: int) returns (ok: bool)
      modifies this
      ensures name == TWO_FA && codeOk ==> ok && Abs() == Step(old(Abs()), TwoFactor(now))
      ensures name == PASSKEY ==> ok == Accepts(old(Abs()), Passkey(consumedAt, now)) &&
                                  Abs() == Step(old(Abs()), Passkey(consumedAt, now))
      ensures name != PASSKEY && !(name == TWO_FA && codeOk) ==> !ok && Abs() == old(Abs())
    {
      var verified := false;
      if name == TWO_FA {
        verified := codeOk;
      } else if name == PASSKEY {
        verified := ConsumePasskeyReady(consumedAt);
      }
      if !verified { return false; }
      SetSecureVerificationSession(name, now);
      ok := true;
    }

    method RequireSecureVerificationMethod(wanted: string, now: int) returns (ok: bool)
      modifies this
      ensures Abs() == Step(old(Abs()), Require(wanted, now)) && ok == Accepts(old(Abs()), Require(wanted, now))
    {
      if verifiedAt.None? || now - verifiedAt.value >= VERIFIED_FOR {
        verifiedAt := None;
        verifiedMethod := None;
        return false;
      }
      if verifiedMethod != Some(wanted) { return false; }
      ok := true;
    }
  }

  // ---------------------------------------------------------------- histories

  function StateAt(events: seq<Event>, n: nat): State
    requires n <= |events|
  {
    if n == 0 then State(None, None, None) else Step(StateAt(events, n - 1), events[n - 1])
  }

  predicate Accepted(events: seq<Event>, i: nat)
    requires i < |events|
  {
    Accepts(StateAt(events, i), events[i])
  }

  function Start(e: Event): int {
    if e.Passkey? then e.consumedAt else e.at
  }

  /** The clock does not go back. */
  predicate Clocked(events: seq<Event>) {
    && (forall i :: 0 <= i < |events| ==> Start(events[i]) <= events[i].at)
    && (forall i, j :: 0 <= i < j < |events| ==> events[i].at <= Start(events[j]))
  }

  /** Event i is a verification that succeeded, with the given method. */
  predicate Verifies(events: seq<Event>, i: nat, name: string)
    requires i < |events|
  {
    (events[i].TwoFactor? && name == TWO_FA) || (events[i].Passkey? && Accepted(events, i) && name == PASSKEY)
  }

  predicate VerifiesSomehow(events: seq<Event>, i: nat)
    requires i < |events|
  {
    Verifies(events, i, TWO_FA) || Verifies(events, i, PASSKEY)
  }

  // ---------------------------------------------------------------- the passkey marker

  predicate EndsReady(events: seq<Event>, k: nat)
    requires k < |events|
  {
    events[k].Finish? || events[k].TwoFactor? || events[k].Passkey?
  }

  /** Event j is the finish whose marker is still in the session before event n. */
  ghost predicate ReadyFrom(events: seq<Event>, j: nat, n: nat) {
    j < n <= |events| && events[j].Finish? && forall k: nat :: j < k < n ==> !EndsReady(events, k)
  }

  lemma {:induction false} ReadyMarker(events: seq<Event>, n: nat)
    requires n <= |events|
    ensures StateAt(events, n).readyAt.Some? ==>
              exists j: nat :: ReadyFrom(events, j, n) && StateAt(events, n).readyAt == Some(events[j].at)
    ensures forall j: nat :: ReadyFrom(events, j, n) ==> StateAt(events, n).readyAt == Some(events[j].at)
  {
    if n > 0 {
      ReadyMarker(events, n - 1);
      var e := events[n - 1];
      if StateAt(events, n).readyAt.Some? {
        if e.Finish? {
          assert ReadyFrom(events, n - 1, n);
        } else {
          var j: nat :| ReadyFrom(events, j, n - 1) && StateAt(events, n - 1).readyAt == Some(events[j].at);
          assert ReadyFrom(events, j, n);
        }
      }
      forall j: nat | ReadyFrom(events, j, n) ensures StateAt(events, n).readyAt == Some(events[j].at) {
        if j < n - 1 {
          assert !EndsReady(events, n - 1);
          assert ReadyFrom(events, j, n - 1);
        }
      }
    }
  }

  /** A PASSKEY VERIFICATION SUCCEEDS exactly when some finish less than 60 seconds old has had no further
      finish, passkey attempt or 2FA verification after it. */
  lemma PasskeyIff(events: seq<Event>, i: nat)
    requires i < |events| && events[i].Passkey?
    ensures Accepted(events, i) <==>
            exists j: nat :: ReadyFrom(events, j, i) && events[i].consumedAt - events[j].at < 60
  {
    ReadyMarker(events, i);
  }

  /** EACH SUCCESS USES UP ITS OWN FINISH: behind two successful passkey verifications stand two finishes, each less
      than 60 seconds old when it was used, and the later one came after the earlier verification. */
  lemma PasskeyNotShared(events: seq<Event>, i: nat, i': nat)
    requires i < i' < |events| && events[i].Passkey? && events[i'].Passkey?
    requires Accepted(events, i) && Accepted(events, i')
    ensures exists j: nat, j': nat ::
              && ReadyFrom(events, j, i) && events[i].consumedAt - events[j].at < 60
              && ReadyFrom(events, j', i') && events[i'].consumedAt - events[j'].at < 60
              && j < i < j' < i'
    ensures forall j: nat, j': nat :: ReadyFrom(events, j, i) && ReadyFrom(events, j', i') ==> j < i < j'
  {
    PasskeyIff(events, i);
    PasskeyIff(events, i');
    assert EndsReady(events, i);
  }

  // ---------------------------------------------------------------- the verified mark

  predicate EndsVerified(events: seq<Event>, k: nat)
    requires k < |events|
  {
    events[k].Finish? || VerifiesSomehow(events, k)
  }

  /** Event j is the verification that counts before event n. */
  ghost predicate VerifiedFrom(events: seq<Event>, j: nat, n: nat) {
    j < n <= |events| && VerifiesSomehow(events, j) && forall k: nat :: j < k < n ==> !EndsVerified(events, k)
  }

  function MethodOf(e: Event): string {
    if e.TwoFactor? then TWO_FA else PASSKEY
  }

  /** The session holds exactly the mark left by event j. */
  predicate Holds(s: State, e: Event) {
    s.verifiedAt == Some(e.at) && s.verifiedBy == Some(MethodOf(e))
  }

  /** The mark was dropped because a protected action found it too old. */
  predicate Dropped(s: State, e: Event, now: int) {
    s.verifiedAt == None && s.verifiedBy == None && now - e.at >= VERIFIED_FOR
  }

  lemma {:induction false} VerifiedMark(events: seq<Event>, n: nat)
    requires n <= |events| && Clocked(events)
    ensures StateAt(events, n).verifiedAt.Some? ==>
              exists j: nat :: VerifiedFrom(events, j, n) && Holds(StateAt(events, n), events[j])
    ensures forall j: nat :: VerifiedFrom(events, j, n) ==>
              Holds(StateAt(events, n), events[j]) || Dropped(StateAt(events, n), events[j], events[n - 1].at)
  {
    if n > 0 {
      VerifiedMark(events, n - 1);
      MarkComesFrom(events, n);
      forall j: nat | VerifiedFrom(events, j, n)
        ensures Holds(StateAt(events, n), events[j]) || Dropped(StateAt(events, n), events[j], events[n - 1].at)
      {
        MarkRemains(events, j, n);
      }
    }
  }

  lemma MarkComesFrom(events: seq<Event>, n: nat)
    requires 0 < n <= |events|
    requires StateAt(events, n - 1).verifiedAt.Some? ==>
               exists j: nat :: VerifiedFrom(events, j, n - 1) && Holds(StateAt(events, n - 1), events[j])
    ensures StateAt(events, n).verifiedAt.Some? ==>
              exists j: nat :: VerifiedFrom(events, j, n) && Holds(StateAt(events, n), events[j])
  {
    if StateAt(events, n).verifiedAt.Some? {
      if VerifiesSomehow(events, n - 1) {
        assert VerifiedFrom(events, n - 1, n) && Holds(StateAt(events, n), events[n - 1]);
      } else {
        var j: nat :| VerifiedFrom(events, j, n - 1) && Holds(StateAt(events, n - 1), events[j]);
        assert VerifiedFrom(events, j, n) && Holds(StateAt(events, n), events[j]);
      }
    }
  }

  lemma MarkRemains(events: seq<Event>, j: nat, n: nat)
    requires 0 < n <= |events| && Clocked(events) && VerifiedFrom(events, j, n)
    requires VerifiedFrom(events, j, n - 1) ==>
               Holds(StateAt(events, n - 1), events[j]) || Dropped(StateAt(events, n - 1), events[j], events[n - 2].at)
    ensures Holds(StateAt(events, n), events[j]) || Dropped(StateAt(events, n), events[j], events[n - 1].at)
  {
    if j < n - 1 {
      assert !EndsVerified(events, n - 1);
      assert VerifiedFrom(events, j, n - 1);
      assert events[n - 2].at <= Start(events[n - 1]) <= events[n - 1].at;
    }
  }

  /** A PROTECTED ACTION PASSES exactly when a verification with the wanted method, less than 300 seconds old,
      has had no PasskeyVerifyFinish and no other successful verification after it. */
  lemma RequireIff(events: seq<Event>, i: nat)
    requires i < |events| && events[i].Require? && Clocked(events)
    ensures Accepted(events, i) <==>
            exists j: nat :: VerifiedFrom(events, j, i) && Verifies(events, j, events[i].wanted) &&
                             events[i].at - events[j].at < 300
  {
    VerifiedMark(events, i);
    var s := StateAt(events, i);
    if Accepted(events, i) {
      var j: nat :| VerifiedFrom(events, j, i) && Holds(s, events[j]);
      assert Verifies(events, j, events[i].wanted);
    }
    if j: nat :|
      VerifiedFrom(events, j, i) && Verifies(events, j, events[i].wanted) && events[i].at - events[j].at < VERIFIED_FOR
    {
      assert events[i - 1].at <= events[i].at;
    }
  }

  /** END TO END: an action that asks for a passkey passes only on a passkey ceremony of this session that was
      finished less than 360 seconds plus the verification's own duration ago and was not superseded since. */
  lemma PasskeyActionBacked(events: seq<Event>, i: nat)
    requires i < |events| && events[i].Require? && events[i].wanted == PASSKEY && Clocked(events) && Accepted(events, i)
    ensures exists f: nat, v: nat ::
              && ReadyFrom(events, f, v) && VerifiedFrom(events, v, i) && events[v].Passkey?
              && events[i].at - events[f].at < 360 + (events[v].at - events[v].consumedAt)
  {
    RequireIff(events, i);
    var v: nat :|
      VerifiedFrom(events, v, i) && Verifies(events, v, PASSKEY) && events[i].at - events[v].at < VERIFIED_FOR;
    PasskeyIff(events, v);
    var f: nat :| ReadyFrom(events, f, v) && events[v].consumedAt - events[f].at < READY_FOR;
  }
}
