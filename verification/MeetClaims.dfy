/**
 How far a confirmation protects a device. Within 750 ms another source can be rebound to
 it exactly if the confirmation was taken back (its source lost the device, or a start or
 stop wiped it), or was overwritten by a later one that is the other source's own or was
 itself taken back.
 */
module MeetClaims {
  import opened Wrappers
  import opened CapturePolicy
  import opened MeetState
  import opened MeetFacts
  import opened MeetEvidence
  import opened MeetRuns

  predicate Confirms(log: seq<ClaimEvent>, k: int, d: DeviceId) {
    0 <= k < |log| && log[k].Confirmed? && log[k].deviceId == d
  }

  /** The last confirmation of a device; the code keeps no other. */
  predicate LastClaim(log: seq<ClaimEvent>, k: int, d: DeviceId) {
    Confirms(log, k, d) && forall m | k < m < |log| :: !Confirms(log, m, d)
  }

  /** The source of the confirmation lost the device since, or all claims were wiped. */
  predicate TakenBack(log: seq<ClaimEvent>, k: int)
    requires 0 <= k < |log| && log[k].Confirmed?
  {
    exists m | k < m < |log| :: log[m] == Wiped || log[m] == Lost(log[k].source, log[k].deviceId)
  }

  /** The last confirmation since is another one and `src`'s own, or was taken back. */
  predicate Superseded(log: seq<ClaimEvent>, k: int, src: Source)
    requires 0 <= k < |log| && log[k].Confirmed?
  {
    exists m | k <= m < |log| && LastClaim(log, m, log[k].deviceId) ::
      (m > k && log[m].source == src) || TakenBack(log, m)
  }

  // ---- What stands, read off the log ----

  lemma {:induction false} StandingExactly(log: seq<ClaimEvent>, d: DeviceId, k: nat)
    requires LastClaim(log, k, d)
    ensures Standing(log, d) == if TakenBack(log, k) then None else Some(Claim(log[k].source, log[k].at))
    decreases |log|
  {
    var front, e := log[..|log| - 1], log[|log| - 1];
    if k < |front| {
      forall m | k < m < |front| ensures !Confirms(front, m, d) {
        assert !Confirms(log, m, d);
      }
      StandingExactly(front, d, k);
      assert !Confirms(log, |log| - 1, d);
      if TakenBack(front, k) {
        var m :| k < m < |front| && (front[m] == Wiped || front[m] == Lost(log[k].source, d));
        assert log[m] == front[m];
      } else if e != Wiped && e != Lost(log[k].source, d) {
        forall m | k < m < |log| ensures log[m] != Wiped && log[m] != Lost(log[k].source, d) {
          assert m < |front| ==> log[m] == front[m];
        }
      }
    }
  }

  lemma {:induction false} NeverConfirmed(log: seq<ClaimEvent>, d: DeviceId)
    requires forall k | 0 <= k < |log| :: !Confirms(log, k, d)
    ensures Standing(log, d) == None
    decreases |log|
  {
    if log != [] {
      var front := log[..|log| - 1];
      forall k | 0 <= k < |front| ensures !Confirms(front, k, d) {
        assert !Confirms(log, k, d);
      }
      assert !Confirms(log, |log| - 1, d);
      NeverConfirmed(front, d);
    }
  }

  lemma {:induction false} SomeLast(log: seq<ClaimEvent>, d: DeviceId, k: nat) returns (m: nat)
    requires Confirms(log, k, d)
    ensures k <= m < |log| && LastClaim(log, m, d)
    decreases |log| - k
  {
    if later :| k < later < |log| && Confirms(log, later, d) {
      m := SomeLast(log, d, later);
    } else {
      m := k;
    }
  }

  lemma UnclaimedExactly(log: seq<ClaimEvent>, src: Source, d: DeviceId, now: Time)
    ensures Unclaimed(log, src, d, now) <==>
            forall k | 0 <= k < |log| && LastClaim(log, k, d) && now - log[k].at <= CLAIM_MS ::
              log[k].source == src || TakenBack(log, k)
  {
    forall k | 0 <= k < |log| && LastClaim(log, k, d)
      ensures Standing(log, d) == if TakenBack(log, k) then None else Some(Claim(log[k].source, log[k].at))
    {
      StandingExactly(log, d, k);
    }
    if k :| 0 <= k < |log| && Confirms(log, k, d) {
      var m := SomeLast(log, d, k);
    } else {
      NeverConfirmed(log, d);
    }
  }

  /** A later confirmation is no older, so of a recent one only the last since then counts. */
  lemma RecentExactly(log: seq<ClaimEvent>, src: Source, d: DeviceId, now: Time, k: nat)
    requires LogTimed(log, now) && Confirms(log, k, d)
    requires log[k].source != src && now - log[k].at <= CLAIM_MS
    ensures Unclaimed(log, src, d, now) <==> Superseded(log, k, src)
  {
    UnclaimedExactly(log, src, d, now);
    var m := SomeLast(log, d, k);
    assert log[k].at <= log[m].at;
    forall i | 0 <= i < |log| && LastClaim(log, i, d) ensures i == m {
      assert Confirms(log, i, d) && Confirms(log, m, d);
    }
  }

  // ---- One correlation ----

  /** Everything a rebind needs apart from claims. */
  predicate Ripe(env: Env, lane: Lane, d: DeviceId, peak: real, allowChallenge: bool) {
    && TheOnly(Candidates(env.users, env.active)) == Some(d)
    && d != lane.route.deviceId
    && allowChallenge && (lane.route.deviceId == NO_DEVICE || d in env.users)
    && peak >= LOUD_PEAK
    && IdentityVoteReady(NextIdentityVote(if lane.challengeDeviceId == d then lane.vote else None, d, env.now))
  }

  lemma RebindsExactly(env: Env, desk: Desk, peak: real, allowChallenge: bool, d: DeviceId)
    requires ClaimsOk(desk.registry, env.now) && TheOnly(Candidates(env.users, env.active)) == Some(d)
    ensures Correlate(env, desk, peak, allowChallenge).1 == Rebind <==>
            && Ripe(env, desk.lane, d, peak, allowChallenge)
            && Unclaimed(desk.registry.claimLog, desk.lane.source, d, env.now)
  {
    ClaimedElsewhereExactly(env, desk.registry, desk.lane.source, d);
  }

  /** A recent confirmation of another source gives way to a ripe rebind exactly when it is superseded. */
  lemma ConfirmationYieldsExactly(env: Env, desk: Desk, peak: real, allowChallenge: bool, d: DeviceId, k: nat)
    requires ClaimsOk(desk.registry, env.now) && Ripe(env, desk.lane, d, peak, allowChallenge)
    requires Confirms(desk.registry.claimLog, k, d) && desk.registry.claimLog[k].source != desk.lane.source
    requires env.now - desk.registry.claimLog[k].at <= CLAIM_MS
    ensures Correlate(env, desk, peak, allowChallenge).1 == Rebind <==>
            Superseded(desk.registry.claimLog, k, desk.lane.source)
  {
    RebindsExactly(env, desk, peak, allowChallenge, d);
    RecentExactly(desk.registry.claimLog, desk.lane.source, d, env.now, k);
  }

  // ---- Over every run ----

  /** A rebind within 750 ms of another source's confirmation of the device finds it superseded. */
  lemma RebindsRespectConfirmations(steps: seq<Step>, src: Source, r: RebindRecord, k: nat)
    requires src in Run(INITIAL, steps).lanes && r in Run(INITIAL, steps).lanes[src].history.rebinds
    requires Confirms(r.claimLog, k, r.deviceId) && r.claimLog[k].source != src
    requires r.at - r.claimLog[k].at <= CLAIM_MS
    ensures Superseded(r.claimLog, k, src)
  {
    EveryRebindIsWarranted(steps, src, r);
    RecentExactly(r.claimLog, src, r.deviceId, r.at, k);
  }
}
