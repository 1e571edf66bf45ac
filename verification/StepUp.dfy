/**
  Step-up verification: controller/secure_verification.go, the session writes of
  PasskeyVerifyFinish and requireSecureVerificationMethod in controller/passkey.go, and
  the check of middleware/secure_verification.go. The session is one linear state;
  whether a save succeeds, a code is right or a user may use a method is an input.
 */
module StepUp {
  import opened Prelude

  const VERIFICATION_TIMEOUT := 300
  const READY_TIMEOUT := 60

  const TWO_FACTOR := "2fa"
  const PASSKEY := "passkey"

  datatype Session = Session(readyAt: Option<int>, verifiedAt: Option<int>, verifiedBy: Option<string>)

  const FRESH := Session(None, None, None)

  /** `allowed`: the user may use the method and, for two-factor, the code is right. */
  datatype Event =
    | Finish(now: int, saved: bool)
    | Verify(via: string, allowed: bool, now: int, later: int, savedFirst: bool, saved: bool)
    | Require(via: string, now: int, saved: bool)
    | Check(now: int, saved: bool)

  function Saved(s: Session, t: Session, saved: bool): Session {
    if saved then t else s
  }

  /** setSecureVerificationSession. */
  function Marked(s: Session, via: string, now: int): Session {
    Session(None, Some(now), Some(via))
  }

  predicate Ready(s: Session, now: int) {
    s.readyAt.Some? && now - s.readyAt.value < READY_TIMEOUT
  }

  predicate Current(s: Session, now: int) {
    s.verifiedAt.Some? && now - s.verifiedAt.value < VERIFICATION_TIMEOUT
  }

  function Cleared(s: Session): Session {
    s.(verifiedAt := None, verifiedBy := None)
  }

  /** The session after an event, and whether the event succeeded or was accepted. */
  function Step(s: Session, e: Event): (Session, bool) {
    match e
    case Finish(now, saved) =>
      (Saved(s, Session(Some(now), None, None), saved), saved)
    case Verify(via, allowed, now, later, savedFirst, saved) =>
      if !allowed || (via != TWO_FACTOR && via != PASSKEY) then (s, false)
      else if via == TWO_FACTOR then (Saved(s, Marked(s, via, later), saved), saved)
      else if s.readyAt.None? || !savedFirst then (s, false)
      else
        var consumed := s.(readyAt := None);
        if !Ready(s, now) then (consumed, false)
        else (Saved(consumed, Marked(consumed, via, later), saved), saved)
    case Require(via, now, saved) =>
      if !Current(s, now) then (Saved(s, Cleared(s), saved), false)
      else (s, s.verifiedBy == Some(via))
    case Check(now, saved) =>
      if s.verifiedAt.None? then (s, false)
      else if !Current(s, now) then (Saved(s, Cleared(s), saved), false)
      else (s, true)
  }

  /** The session in the store, as the handlers change it. */
  class SessionStore {
    var session: Session

    constructor ()
      ensures session == FRESH
    {
      session := FRESH;
    }

    method PasskeyVerifyFinish(now: int, saved: bool) returns (ok: bool)
      modifies this
      ensures (session, ok) == Step(old(session), Finish(now, saved))
    {
      var working := session.(readyAt := Some(now), verifiedAt := None, verifiedBy := None);
      if !saved {
        return false;
      }
      session := working;
      return true;
    }

    /** One-shot: the marker goes even if it has expired. */
    method ConsumePasskeyReady(now: int, saved: bool) returns (ok: bool)
      modifies this
      ensures session == if old(session).readyAt.Some? && saved then old(session).(readyAt := None) else old(session)
      ensures ok <==> saved && Ready(old(session), now)
    {
      if session.readyAt.None? {
        return false;
      }
      var readyAt := session.readyAt.value;
      if !saved {
        return false;
      }
      session := session.(readyAt := None);
      if now - readyAt >= READY_TIMEOUT {
        return false;
      }
      return true;
    }

    method SetSecureVerificationSession(via: string, now: int, saved: bool) returns (ok: bool)
      modifies this
      ensures session == Saved(old(session), Marked(old(session), via, now), saved) && ok == saved
    {
      if saved {
        session := session.(readyAt := None, verifiedAt := Some(now), verifiedBy := Some(via));
      }
      return saved;
    }

    method UniversalVerify(via: string, allowed: bool, now: int, later: int, savedFirst: bool, saved: bool) returns (ok: bool)
      modifies this
      ensures (session, ok) == Step(old(session), Verify(via, allowed, now, later, savedFirst, saved))
    {
      if !allowed {
        return false;
      }
      if via == TWO_FACTOR {
        ok := SetSecureVerificationSession(via, later, saved);
      } else if via == PASSKEY {
        var ready := ConsumePasskeyReady(now, savedFirst);
        if !ready {
          return false;
        }
        ok := SetSecureVerificationSession(via, later, saved);
      } else {
        return false;
      }
    }

    method RequireSecureVerificationMethod(via: string, now: int, saved: bool) returns (ok: bool)
      modifies this
      ensures (session, ok) == Step(old(session), Require(via, now, saved))
    {
      if session.verifiedAt.None? || now - session.verifiedAt.value >= VERIFICATION_TIMEOUT {
        if saved {
          session := session.(verifiedAt := None, verifiedBy := None);
        }
        return false;
      }
      return session.verifiedBy.Some? && session.verifiedBy.value == via;
    }
  }

  // ---- histories --------------------------------------------------------------------------------

  /** The session after the first k events. */
  function At(events: seq<Event>, k: nat): Session
    requires k <= |events|
  {
    if k == 0 then FRESH else Step(At(events, k - 1), events[k - 1]).0
  }

  predicate Succeeds(events: seq<Event>, k: nat)
    requires k < |events|
  {
    Step(At(events, k), events[k]).1
  }

  predicate Verified(events: seq<Event>, k: nat)
    requires k < |events|
  {
    events[k].Verify? && Succeeds(events, k)
  }

  predicate Finished(events: seq<Event>, k: nat)
    requires k < |events|
  {
    events[k].Finish? && events[k].saved
  }

  predicate Accepted(events: seq<Event>, k: nat)
    requires k < |events|
  {
    events[k].Require? && Succeeds(events, k)
  }

  /** Nothing after event j and before event k finishes or verifies. */
  ghost predicate Quiet(events: seq<Event>, j: nat, k: nat)
    requires k <= |events|
  {
    forall i :: j < i < k ==> !Finished(events, i) && !Verified(events, i)
  }

  /** The verification that the session shows after k events comes from event j. */
  ghost predicate VerificationFrom(events: seq<Event>, j: nat, k: nat)
    requires k <= |events|
  {
    && j < k && Verified(events, j) && Quiet(events, j, k)
    && At(events, k).verifiedAt == Some(events[j].later)
    && At(events, k).verifiedBy == Some(events[j].via)
  }

  /** The event takes the marker away, whether or not it succeeds. */
  predicate Spends(e: Event) {
    e.Verify? && e.via == "passkey" && e.allowed && e.savedFirst
  }

  ghost predicate Unspent(events: seq<Event>, i: nat, k: nat)
    requires k <= |events|
  {
    forall j :: i < j < k ==> !Spends(events[j])
  }

  ghost predicate MarkerFrom(events: seq<Event>, i: nat, k: nat)
    requires k <= |events|
  {
    && i < k && Finished(events, i) && Quiet(events, i, k) && Unspent(events, i, k)
    && At(events, k).readyAt == Some(events[i].now)
  }

  lemma {:induction false} WhereVerificationComesFrom(events: seq<Event>, k: nat)
    requires k <= |events|
    ensures At(events, k).verifiedAt.Some? ==> exists j :: VerificationFrom(events, j, k)
    ensures At(events, k).verifiedAt.None? ==> At(events, k).verifiedBy.None?
  {
    if k > 0 {
      WhereVerificationComesFrom(events, k - 1);
      if At(events, k).verifiedAt.Some? {
        if Verified(events, k - 1) {
          assert VerificationFrom(events, k - 1, k);
        } else {
          var j: nat :| VerificationFrom(events, j, k - 1);
          assert VerificationFrom(events, j, k);
        }
      }
    }
  }

  lemma {:induction false} WhereMarkerComesFrom(events: seq<Event>, k: nat)
    requires k <= |events|
    ensures At(events, k).readyAt.Some? ==> exists i :: MarkerFrom(events, i, k)
  {
    if k > 0 {
      WhereMarkerComesFrom(events, k - 1);
      if At(events, k).readyAt.Some? {
        if Finished(events, k - 1) {
          assert MarkerFrom(events, k - 1, k);
        } else {
          var i: nat :| MarkerFrom(events, i, k - 1);
          assert MarkerFrom(events, i, k);
        }
      }
    }
  }

  // ---- what an acceptance proves -----------------------------------------------------------------

  /** A verification less than 300 s earlier, nothing finished or verified since. */
  ghost predicate Recent(events: seq<Event>, j: nat, k: nat)
    requires k < |events| && (events[k].Require? || events[k].Check?)
  {
    && j < k && Verified(events, j) && Quiet(events, j, k)
    && events[k].now - events[j].later < 300
  }

  /** ... with the method asked for. */
  ghost predicate Vouches(events: seq<Event>, j: nat, k: nat)
    requires k < |events| && events[k].Require?
  {
    Recent(events, j, k) && events[j].via == events[k].via
  }

  /** Every acceptance has such a verification behind it. */
  lemma AcceptanceHasHistory(events: seq<Event>, k: nat)
    requires k < |events| && Accepted(events, k)
    ensures exists j :: Vouches(events, j, k)
  {
    WhereVerificationComesFrom(events, k);
    var j: nat :| VerificationFrom(events, j, k);
    assert Vouches(events, j, k);
  }

  /** The middleware accepts any method, under the same time limit. */
  lemma CheckHasHistory(events: seq<Event>, k: nat)
    requires k < |events| && events[k].Check? && Succeeds(events, k)
    ensures exists j: nat :: Recent(events, j, k)
  {
    WhereVerificationComesFrom(events, k);
    var j: nat :| VerificationFrom(events, j, k);
    assert Recent(events, j, k);
  }

  /** A passkey verification consumed a marker less than 60 s old, finished since the last verification. */
  ghost predicate Consumes(events: seq<Event>, i: nat, j: nat)
    requires j < |events| && events[j].Verify?
  {
    i < j && Finished(events, i) && Quiet(events, i, j) && Unspent(events, i, j) && events[j].now - events[i].now < 60
  }

  lemma PasskeyConsumesMarker(events: seq<Event>, j: nat)
    requires j < |events| && Verified(events, j) && events[j].via == PASSKEY
    ensures exists i :: Consumes(events, i, j)
  {
    WhereMarkerComesFrom(events, j);
    var i: nat :| MarkerFrom(events, i, j);
    assert Consumes(events, i, j);
  }

  /** No marker serves two verifications: the later one needs a finish after the earlier one. */
  lemma MarkersServeOnce(events: seq<Event>, i: nat, j: nat, i': nat, j': nat)
    requires j < j' < |events| && Verified(events, j) && Verified(events, j')
    requires Consumes(events, i, j) && Consumes(events, i', j')
    ensures i < j < i' < j'
  {
    assert Quiet(events, i', j');
  }

  /** Nothing is accepted between a finish and the next verification. */
  lemma FinishRevokes(events: seq<Event>, i: nat, k: nat)
    requires i < k < |events| && Finished(events, i) && Accepted(events, k)
    ensures exists j :: i < j < k && Verified(events, j)
  {
    AcceptanceHasHistory(events, k);
    var j: nat :| Vouches(events, j, k);
    assert i < j < k && Verified(events, j);
  }

  /** Asking after 300 s clears the verification if the session can be saved; asking earlier changes nothing. */
  lemma ExpiryClears(s: Session, e: Event)
    requires e.Require? || e.Check?
    ensures var t := Step(s, e).0;
      var expired := s.verifiedAt.Some? && e.now - s.verifiedAt.value >= 300;
      && (expired && e.saved ==> t == Session(s.readyAt, None, None))
      && (!expired && s.verifiedAt.Some? ==> t == s)
      && (!e.saved ==> t == s)
  {
  }

  // ---- and conversely -------------------------------------------------------------------------

  /** The clock does not run backwards between the events that look at the verification. */
  ghost predicate Orderly(events: seq<Event>, k: nat)
    requires k < |events|
  {
    forall i :: 0 <= i < k && (events[i].Require? || events[i].Check?) ==> events[i].now <= events[k].now
  }

  lemma {:induction false} VerificationLasts(events: seq<Event>, j: nat, m: nat, k: nat)
    requires j < m <= k < |events| && (events[k].Require? || events[k].Check?) && Orderly(events, k) && Recent(events, j, k)
    ensures At(events, m).verifiedAt == Some(events[j].later) && At(events, m).verifiedBy == Some(events[j].via)
    decreases m
  {
    if m > j + 1 {
      VerificationLasts(events, j, m - 1, k);
      assert !Finished(events, m - 1) && !Verified(events, m - 1);
    }
  }

  /** With an orderly clock a requirement is accepted exactly when some verification vouches for it. */
  lemma AcceptedExactlyWhen(events: seq<Event>, k: nat)
    requires k < |events| && events[k].Require? && Orderly(events, k)
    ensures Accepted(events, k) <==> exists j :: Vouches(events, j, k)
  {
    if Accepted(events, k) {
      AcceptanceHasHistory(events, k);
    }
    if j: nat :| Vouches(events, j, k) {
      VerificationLasts(events, j, k, k);
    }
  }

  /** Likewise the middleware, for any method. */
  lemma CheckedExactlyWhen(events: seq<Event>, k: nat)
    requires k < |events| && events[k].Check? && Orderly(events, k)
    ensures Succeeds(events, k) <==> exists j :: Recent(events, j, k)
  {
    if Succeeds(events, k) {
      CheckHasHistory(events, k);
    }
    if j: nat :| Recent(events, j, k) {
      VerificationLasts(events, j, k, k);
    }
  }

  lemma {:induction false} MarkerLasts(events: seq<Event>, i: nat, m: nat, k: nat)
    requires i < m <= k <= |events| && Finished(events, i) && Quiet(events, i, k) && Unspent(events, i, k)
    ensures At(events, m).readyAt == Some(events[i].now)
    decreases m
  {
    if m > i + 1 {
      MarkerLasts(events, i, m - 1, k);
      assert !Finished(events, m - 1) && !Verified(events, m - 1) && !Spends(events[m - 1]);
    }
  }

  /**
    A verification succeeds exactly when the user may use the method, the session is saved, and the method is
    two-factor, or it is passkey with a finish less than 60 s before that nothing has used up.
   */
  lemma VerifiedExactlyWhen(events: seq<Event>, k: nat)
    requires k < |events| && events[k].Verify?
    ensures Verified(events, k) <==>
      && events[k].allowed && events[k].saved
      && (events[k].via == "2fa" ||
          (events[k].via == "passkey" && events[k].savedFirst && exists i :: Consumes(events, i, k)))
  {
    if Verified(events, k) && events[k].via == PASSKEY {
      PasskeyConsumesMarker(events, k);
    }
    if i: nat :| Consumes(events, i, k) {
      MarkerLasts(events, i, k, k);
    }
  }
}
