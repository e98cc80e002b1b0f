/**
 The evidence behind an activity rebind: a sustained, exclusive run of loud agreement,
 and no standing claim of another source.
 */
module MeetEvidence {
  import opened Wrappers
  import opened CapturePolicy
  import opened MeetState
  import opened MeetFacts

  // ---- What an observed run must look like ----

  function LoudTimes(obs: seq<Observation>): seq<Time> {
    if obs == [] then []
    else LoudTimes(obs[..|obs| - 1]) + (if obs[|obs| - 1].loud then [obs[|obs| - 1].at] else [])
  }

  predicate Contiguous(times: seq<Time>) {
    forall k | 0 <= k < |times| - 1 :: times[k] <= times[k + 1] <= times[k] + VOTE_MAX_GAP_MS
  }

  /** Every observation from `i` on saw `device` as the only candidate, and not as the owner. */
  predicate OnlyChallenger(obs: seq<Observation>, i: nat, device: DeviceId) {
    forall j | i <= j < |obs| :: obs[j].sole == Some(device) && obs[j].owner != device
  }

  /** A suffix of the observations is a loud, gapless run long enough to rebind. */
  predicate SustainedFrom(obs: seq<Observation>, i: nat, device: DeviceId) {
    && i < |obs| && OnlyChallenger(obs, i, device)
    && obs[|obs| - 1].loud
    && var times := LoudTimes(obs[i..]);
    && |times| >= VOTE_MIN_SAMPLES && Contiguous(times)
    && times[|times| - 1] - times[0] >= VOTE_MIN_MS
  }

  predicate Sustained(obs: seq<Observation>, device: DeviceId) {
    exists i :: 0 <= i < |obs| && SustainedFrom(obs, i, device)
  }

  /** The confirmation of a device that still stands: not lost by its source, not wiped. */
  function Standing(log: seq<ClaimEvent>, device: DeviceId): Option<Claim> {
    if log == [] then None
    else
      var before := Standing(log[..|log| - 1], device);
      match log[|log| - 1]
      case Confirmed(src, d, at) => if d == device then Some(Claim(src, at)) else before
      case Lost(src, d) => if d == device && before.Some? && before.value.source == src then None else before
      case Wiped => None
  }

  /** Nobody but `src` held a fresh standing claim on the device. */
  predicate Unclaimed(log: seq<ClaimEvent>, src: Source, device: DeviceId, now: Time) {
    var claim := Standing(log, device);
    claim.Some? ==> claim.value.source == src || now - claim.value.lastAt > CLAIM_MS
  }

  /** Confirmations are logged in the order of time. */
  predicate LogTimed(log: seq<ClaimEvent>, now: Time) {
    && (forall k | 0 <= k < |log| && log[k].Confirmed? :: log[k].at <= now)
    && (forall j, k | 0 <= j < k < |log| && log[j].Confirmed? && log[k].Confirmed? :: log[j].at <= log[k].at)
  }

  /** What a rebind of `src` must be able to show. */
  predicate Warranted(src: Source, r: RebindRecord) {
    && Sustained(r.observations, r.deviceId)
    && r.observations[|r.observations| - 1].at == r.at
    && LogTimed(r.claimLog, r.at)
    && Unclaimed(r.claimLog, src, r.deviceId, r.at)
  }

  // ---- Invariant of a lane ----

  predicate BackedFrom(obs: seq<Observation>, i: nat, v: Vote) {
    && i < |obs| && OnlyChallenger(obs, i, v.deviceId)
    && var times := LoudTimes(obs[i..]);
    && |times| == v.samples > 0 && Contiguous(times)
    && times[0] == v.firstAt && times[|times| - 1] == v.lastAt
  }

  predicate VoteBacked(lane: Lane) {
    lane.vote.Some? ==>
      && (lane.challengeDeviceId == NO_DEVICE || lane.challengeDeviceId == lane.vote.value.deviceId)
      && exists i :: 0 <= i < |lane.history.observations| && BackedFrom(lane.history.observations, i, lane.vote.value)
  }

  predicate EvidenceOk(lane: Lane) {
    VoteBacked(lane) && forall r | r in lane.history.rebinds :: Warranted(lane.source, r)
  }

  // ---- Claims ----

  predicate ClaimOk(reg: Registry, now: Time, device: DeviceId) {
    var standing := Standing(reg.claimLog, device);
    && (device in reg.claims ==> standing == Some(reg.claims[device]))
    && (standing.Some? && device !in reg.claims ==> now - standing.value.lastAt > CLAIM_MS)
  }

  ghost predicate ClaimsOk(reg: Registry, now: Time) {
    LogTimed(reg.claimLog, now) && forall device :: ClaimOk(reg, now, device)
  }

  lemma StandingGrows(log: seq<ClaimEvent>, e: ClaimEvent, device: DeviceId)
    ensures Standing(log + [e], device) ==
            match e
            case Confirmed(src, d, at) => if d == device then Some(Claim(src, at)) else Standing(log, device)
            case Lost(src, d) =>
              if d == device && Standing(log, device).Some? && Standing(log, device).value.source == src
              then None else Standing(log, device)
            case Wiped => None
  {
    assert (log + [e])[..|log|] == log;
  }

  lemma ConfirmOk(reg: Registry, src: Source, device: DeviceId, now: Time)
    requires ClaimsOk(reg, now)
    ensures ClaimsOk(Confirm(reg, src, device, now), now)
  {
    forall d ensures ClaimOk(Confirm(reg, src, device, now), now, d) {
      assert ClaimOk(reg, now, d);
      StandingGrows(reg.claimLog, Confirmed(src, device, now), d);
    }
  }

  lemma DropClaimOk(reg: Registry, src: Source, device: DeviceId, now: Time)
    requires ClaimsOk(reg, now)
    ensures ClaimsOk(DropClaim(reg, src, device), now)
  {
    forall d ensures ClaimOk(DropClaim(reg, src, device), now, d) {
      assert ClaimOk(reg, now, d);
      StandingGrows(reg.claimLog, Lost(src, device), d);
    }
  }

  lemma SameClaimsOk(reg: Registry, reg': Registry, now: Time)
    requires ClaimsOk(reg, now) && reg'.claims == reg.claims && reg'.claimLog == reg.claimLog
    ensures ClaimsOk(reg', now)
  {
    forall d ensures ClaimOk(reg', now, d) {
      assert ClaimOk(reg, now, d);
    }
  }

  lemma ExpireOk(env: Env, reg: Registry, device: DeviceId)
    requires ClaimsOk(reg, env.now)
    ensures ClaimsOk(ExpireClaim(env, reg, device), env.now)
  {
    forall d ensures ClaimOk(ExpireClaim(env, reg, device), env.now, d) {
      assert ClaimOk(reg, env.now, d);
    }
  }

  lemma ClaimsAge(reg: Registry, now: Time, later: Time)
    requires ClaimsOk(reg, now) && now <= later
    ensures ClaimsOk(reg, later)
  {
    forall d ensures ClaimOk(reg, later, d) {
      assert ClaimOk(reg, now, d);
    }
  }

  lemma WipeOk(reg: Registry, now: Time)
    requires ClaimsOk(reg, now)
    ensures ClaimsOk(WipeClaims(reg), now)
  {
    forall d ensures ClaimOk(WipeClaims(reg), now, d) {
      StandingGrows(reg.claimLog, Wiped, d);
    }
  }

  lemma AssignClaimsOk(env: Env, desk: Desk, next: DeviceId)
    requires ClaimsOk(desk.registry, env.now)
    ensures ClaimsOk(AssignDevice(env, desk, next).registry, env.now)
  {
    if next != desk.lane.route.deviceId {
      var dropped := DropClaim(desk.registry, desk.lane.source, desk.lane.route.deviceId);
      DropClaimOk(desk.registry, desk.lane.source, desk.lane.route.deviceId, env.now);
      SameClaimsOk(dropped, RegisterChannel(dropped, desk.lane.route, next), env.now);
    }
  }

  // ---- Votes ----

  lemma LoudTimesGrow(obs: seq<Observation>, i: nat, o: Observation)
    requires i <= |obs|
    ensures LoudTimes((obs + [o])[i..]) == LoudTimes(obs[i..]) + if o.loud then [o.at] else []
  {
    assert (obs + [o])[i..] == obs[i..] + [o];
    assert (obs[i..] + [o])[..|obs| - i] == obs[i..];
  }

  /** A quiet observation of the challenger keeps the vote, a loud one continues or restarts it. */
  lemma VoteContinues(obs: seq<Observation>, i: nat, previous: Vote, o: Observation)
    requires BackedFrom(obs, i, previous)
    requires o.sole == Some(previous.deviceId) && o.owner != previous.deviceId
    ensures !o.loud ==> BackedFrom(obs + [o], i, previous)
    ensures o.loud ==>
              var v := NextIdentityVote(Some(previous), previous.deviceId, o.at);
              BackedFrom(obs + [o], i, v) || BackedFrom(obs + [o], |obs|, v)
  {
    LoudTimesGrow(obs, i, o);
    VoteRestarts(obs, o);
    var times, times' := LoudTimes(obs[i..]), LoudTimes((obs + [o])[i..]);
    assert o.loud ==> times'[..|times|] == times && times'[|times|] == o.at;
  }

  lemma VoteRestarts(obs: seq<Observation>, o: Observation)
    requires o.sole.Some? && o.owner != o.sole.value
    ensures o.loud ==> BackedFrom(obs + [o], |obs|, Vote(o.sole.value, 1, o.at, o.at))
  {
    LoudTimesGrow(obs, |obs|, o);
    assert obs[|obs|..] == [];
  }

  lemma NextVoteBacked(obs: seq<Observation>, previous: Option<Vote>, o: Observation)
    requires o.sole.Some? && o.owner != o.sole.value && o.loud
    requires previous.Some? ==>
               && previous.value.deviceId == o.sole.value
               && exists i :: 0 <= i < |obs| && BackedFrom(obs, i, previous.value)
    ensures var v := NextIdentityVote(previous, o.sole.value, o.at);
            && v.deviceId == o.sole.value
            && exists i :: 0 <= i < |obs| + 1 && BackedFrom(obs + [o], i, v)
  {
    VoteRestarts(obs, o);
    if previous.Some? {
      var i :| 0 <= i < |obs| && BackedFrom(obs, i, previous.value);
      VoteContinues(obs, i, previous.value, o);
    }
  }

  // ---- Correlation keeps the evidence ----

  lemma RebindWarranted(env: Env, desk: Desk, candidate: DeviceId, v: Vote, i: nat)
    requires EvidenceOk(desk.lane.(vote := None))
    requires var obs := desk.lane.history.observations;
             && 0 <= i < |obs| && BackedFrom(obs, i, v) && v.deviceId == candidate && IdentityVoteReady(v)
             && obs[|obs| - 1].loud && obs[|obs| - 1].at == env.now
    requires LogTimed(desk.registry.claimLog, env.now)
    requires Unclaimed(desk.registry.claimLog, desk.lane.source, candidate, env.now)
    ensures EvidenceOk(RebindRoute(env, desk, candidate).lane)
  {
    var lane' := RebindRoute(env, desk, candidate).lane;
    var record := RebindRecord(candidate, env.now, desk.lane.history.observations, desk.registry.claimLog);
    assert SustainedFrom(record.observations, i, candidate);
    assert lane'.history.rebinds == desk.lane.history.rebinds + [record];
    assert lane'.vote == None;
    forall r | r in lane'.history.rebinds ensures Warranted(lane'.source, r) {
      if r != record {
        assert r in desk.lane.(vote := None).history.rebinds;
      }
    }
  }

  /** `obs` is what had been observed before this correlation. */
  lemma ChallengeEvidence(env: Env, desk: Desk, obs: seq<Observation>, o: Observation)
    requires o.sole.Some? && o.owner != o.sole.value && o.at == env.now && o.sole.value != NO_DEVICE
    requires desk.lane.history.observations == obs + [o]
    requires EvidenceOk(desk.lane.(history := desk.lane.history.(observations := obs)))
    requires LogTimed(desk.registry.claimLog, env.now)
    requires Unclaimed(desk.registry.claimLog, desk.lane.source, o.sole.value, env.now)
    ensures EvidenceOk(Challenge(env, desk, o.sole.value, o.loud).0.lane)
  {
    var candidate := o.sole.value;
    var lane := if desk.lane.challengeDeviceId != candidate then OpenChallenge(desk.lane, candidate) else desk.lane;
    assert EvidenceOk(lane.(vote := None)) by {
      forall r | r in lane.history.rebinds ensures Warranted(lane.source, r) {
        assert r in desk.lane.(history := desk.lane.history.(observations := obs)).history.rebinds;
      }
    }
    if !o.loud {
      if lane.vote.Some? {
        var i :| 0 <= i < |obs| && BackedFrom(obs, i, lane.vote.value);
        VoteContinues(obs, i, lane.vote.value, o);
      }
    } else {
      NextVoteBacked(obs, lane.vote, o);
      var v := NextIdentityVote(lane.vote, candidate, env.now);
      var i :| 0 <= i < |obs| + 1 && BackedFrom(obs + [o], i, v);
      var voted := Desk(desk.registry, lane.(vote := Some(v)));
      assert EvidenceOk(voted.lane);
      if IdentityVoteReady(v) {
        RebindWarranted(env, voted, candidate, v, i);
      }
    }
  }

  /** The claims kept in the map block a device exactly while a confirmation in the log stands and is fresh. */
  lemma ClaimedElsewhereExactly(env: Env, reg: Registry, src: Source, device: DeviceId)
    requires ClaimsOk(reg, env.now)
    ensures ClaimedElsewhere(env, reg, src, device) <==> !Unclaimed(reg.claimLog, src, device, env.now)
  {
    assert ClaimOk(reg, env.now, device);
  }

  lemma CandidateNamed(env: Env, d: DeviceId)
    requires d in Candidates(env.users, env.active)
    ensures d != NO_DEVICE
  {
  }

  lemma CorrelateEvidence(env: Env, desk: Desk, peak: real, allowChallenge: bool)
    requires EvidenceOk(desk.lane) && ClaimsOk(desk.registry, env.now)
    ensures EvidenceOk(Correlate(env, desk, peak, allowChallenge).0.lane)
  {
    var sole := TheOnly(Candidates(env.users, env.active));
    var o := Observation(env.now, sole, peak >= LOUD_PEAK, desk.lane.route.deviceId);
    var seen := Observe(env, desk.lane, sole, o.loud);
    var desk' := Correlate(env, desk, peak, allowChallenge).0;
    if || sole.None? || sole.value == desk.lane.route.deviceId
       || !allowChallenge || (desk.lane.route.deviceId != NO_DEVICE && sole.value !in env.users)
       || ClaimedElsewhere(env, desk.registry, desk.lane.source, sole.value)
    {
      assert desk'.lane == ForgetChallenge(seen);
    } else {
      var reg := ExpireClaim(env, desk.registry, sole.value);
      ClaimedElsewhereExactly(env, desk.registry, desk.lane.source, sole.value);
      CandidateNamed(env, sole.value);
      assert seen.(history := seen.history.(observations := desk.lane.history.observations)) == desk.lane;
      ChallengeEvidence(env, Desk(reg, seen), desk.lane.history.observations, o);
    }
  }

  lemma ChallengeClaimsOk(env: Env, desk: Desk, candidate: DeviceId, loud: bool)
    requires ClaimsOk(desk.registry, env.now)
    ensures ClaimsOk(Challenge(env, desk, candidate, loud).0.registry, env.now)
  {
    if Challenge(env, desk, candidate, loud).1 == Rebind {
      ChallengeResult(env, desk, candidate, loud);
      var lane := if desk.lane.challengeDeviceId != candidate then OpenChallenge(desk.lane, candidate) else desk.lane;
      var voted := lane.(vote := Some(NextIdentityVote(lane.vote, candidate, env.now)));
      RebindClaimsOk(env, Desk(desk.registry, voted), candidate);
    }
  }

  lemma RebindClaimsOk(env: Env, desk: Desk, candidate: DeviceId)
    requires ClaimsOk(desk.registry, env.now)
    ensures ClaimsOk(RebindRoute(env, desk, candidate).registry, env.now)
  {
    var lane := desk.lane;
    var record := RebindRecord(candidate, env.now, lane.history.observations, desk.registry.claimLog);
    var overriding := lane.(
      route := lane.route.(activityDeviceId := candidate,
                           overriddenProtocolRawDeviceId := lane.route.protocolRawDeviceId),
      history := lane.history.(rebinds := lane.history.rebinds + [record]));
    AssignClaimsOk(env, Desk(desk.registry, overriding), candidate);
    ConfirmOk(AssignDevice(env, Desk(desk.registry, overriding), candidate).registry, lane.source, candidate, env.now);
  }

  lemma CorrelateClaimsOk(env: Env, desk: Desk, peak: real, allowChallenge: bool)
    requires ClaimsOk(desk.registry, env.now)
    ensures ClaimsOk(Correlate(env, desk, peak, allowChallenge).0.registry, env.now)
  {
    var sole := TheOnly(Candidates(env.users, env.active));
    var loud := peak >= LOUD_PEAK;
    if sole.Some? {
      ConfirmOk(desk.registry, desk.lane.source, sole.value, env.now);
      ExpireOk(env, desk.registry, sole.value);
      ChallengeClaimsOk(env, Desk(ExpireClaim(env, desk.registry, sole.value), Observe(env, desk.lane, sole, loud)),
        sole.value, loud);
    }
  }

  lemma DeliverEvidence(env: Env, desk: Desk, e: EntryId, samples: seq<real>, peak: real, allowChallenge: bool)
    requires EvidenceOk(desk.lane) && ClaimsOk(desk.registry, env.now)
    ensures var desk' := Deliver(env, desk, e, samples, peak, allowChallenge);
            EvidenceOk(desk'.lane) && ClaimsOk(desk'.registry, env.now)
  {
    CorrelateEvidence(env, desk, peak, allowChallenge);
    CorrelateClaimsOk(env, desk, peak, allowChallenge);
    var lane := Correlate(env, desk, peak, allowChallenge).0.lane;
    FlushKeeps(env, lane);
    PushKeeps(env, lane, e, samples);
    PushKeeps(env, FlushChallenge(env, lane), e, samples);
  }

  lemma UpdateEvidence(env: Env, desk: Desk)
    requires EvidenceOk(desk.lane) && ClaimsOk(desk.registry, env.now)
    ensures var desk' := UpdateRoute(env, desk);
            EvidenceOk(desk'.lane) && ClaimsOk(desk'.registry, env.now)
  {
    UpdateRouteResult(env, desk);
    var deviceId := Resolve(ReadProtocol(env, desk.lane)).deviceId;
    var resolved := Desk(desk.registry, Resolved(desk.lane, ReadProtocol(env, desk.lane)));
    AssignClaimsOk(env, resolved, deviceId);
    ConfirmOk(AssignDevice(env, resolved, deviceId).registry, desk.lane.source, deviceId, env.now);
  }
}
