/**
 What the challenge holds and who gets it: each chunk was held while the challenger was the
 only one shown as speaking, and it is replayed only once the route belongs to the
 challenger; otherwise it is discarded.
 */
module MeetReplay {
  import opened Wrappers
  import opened CapturePolicy
  import opened MeetState
  import opened MeetFacts
  import opened MeetHolding

  /** The last `n` observations saw `device` as the only candidate, and not as the owner. */
  predicate HeldUnder(obs: seq<Observation>, n: nat, device: DeviceId) {
    n <= |obs| && forall j | |obs| - n <= j < |obs| :: obs[j].sole == Some(device) && obs[j].owner != device
  }

  /** Replayed to the challenger, who was the only candidate while the audio was held. */
  predicate ReplayOk(p: Replay) {
    && p.challenger != NO_DEVICE && p.owner == p.challenger
    && HeldUnder(p.observations, |p.chunks|, p.challenger)
  }

  predicate ReplaysOk(lane: Lane) {
    forall p | p in lane.history.replays :: ReplayOk(p)
  }

  /** `n` chunks or more may be held for the challenger, who does not own the route. */
  predicate Open(lane: Lane, n: nat) {
    && (lane.challengeDeviceId != NO_DEVICE ==> lane.challengeDeviceId != lane.route.deviceId)
    && (n > 0 ==> lane.challengeDeviceId != NO_DEVICE)
    && |lane.challengeAudio| <= |lane.history.held| <= n
    && HeldUnder(lane.history.observations, n, lane.challengeDeviceId)
  }

  predicate ChallengeOk(lane: Lane) {
    Open(lane, |lane.history.held|) && ReplaysOk(lane)
  }

  lemma HeldFor(obs: seq<Observation>, o: Observation, n: nat, device: DeviceId)
    requires HeldUnder(obs, n, device) && o.sole == Some(device) && o.owner != device
    ensures HeldUnder(obs + [o], n + 1, device)
  {
  }

  /** Replaying to the challenger is recorded as such, and leaves no challenge. */
  lemma FlushReplays(env: Env, lane: Lane)
    requires ReplaysOk(lane) && lane.challengeDeviceId != NO_DEVICE && lane.route.deviceId == lane.challengeDeviceId
    requires HeldUnder(lane.history.observations, |lane.challengeAudio|, lane.challengeDeviceId)
    ensures ChallengeOk(FlushChallenge(env, lane))
  {
    FlushKeeps(env, lane);
    var lane' := FlushChallenge(env, lane);
    forall p | p in lane'.history.replays ensures ReplayOk(p) {
      assert p in lane.history.replays || p == lane'.history.replays[|lane.history.replays|];
    }
  }

  /** An update replays the challenge to an owner who is the challenger, or discards it with any other new owner. */
  lemma UpdateReplays(env: Env, desk: Desk)
    requires ChallengeOk(desk.lane)
    ensures ChallengeOk(UpdateRoute(env, desk).lane)
  {
    var read := ReadProtocol(env, desk.lane);
    var deviceId := Resolve(read).deviceId;
    var moved := AssignDevice(env, Desk(desk.registry, Resolved(desk.lane, read)), deviceId);
    var announced := Announce(env, moved.lane);
    AssignResult(env, Desk(desk.registry, Resolved(desk.lane, read)), deviceId);
    if ConfirmsChallenge(desk.lane, deviceId) {
      FlushReplays(env, announced.(vote := None));
    }
  }

  /** A new owner gets the held audio if it is the challenger, and otherwise nobody does. */
  predicate ReplayedToChallenger(lane: Lane, lane': Lane) {
    var replay := Replay(lane.challengeAudio, lane.challengeDeviceId, lane'.route.deviceId, lane.history.observations);
    if lane'.route.deviceId == lane.route.deviceId then
      lane'.challengeAudio == lane.challengeAudio && lane'.history.replays == lane.history.replays
    else
      && lane'.challengeAudio == []
      && lane'.history.replays == lane.history.replays +
           if lane'.route.deviceId == lane.challengeDeviceId && lane.challengeAudio != [] then [replay] else []
  }

  lemma UpdateReplaysExactly(env: Env, desk: Desk)
    requires ChallengeOk(desk.lane)
    ensures ReplayedToChallenger(desk.lane, UpdateRoute(env, desk).lane)
  {
    var read := ReadProtocol(env, desk.lane);
    var deviceId := Resolve(read).deviceId;
    var moved := AssignDevice(env, Desk(desk.registry, Resolved(desk.lane, read)), deviceId);
    AssignResult(env, Desk(desk.registry, Resolved(desk.lane, read)), deviceId);
    if ConfirmsChallenge(desk.lane, deviceId) {
      FlushKeeps(env, Announce(env, moved.lane).(vote := None));
    }
  }

  // ---- Correlation ----

  /** What correlating leaves: nothing held, a chunk more to hold, or a challenge that was won. */
  predicate Correlated(lane: Lane, decision: Decision) {
    && ReplaysOk(lane)
    && match decision
       case Hold => Open(lane, |lane.history.held| + 1)
       case Rebind =>
         && lane.challengeDeviceId != NO_DEVICE && lane.route.deviceId == lane.challengeDeviceId
         && HeldUnder(lane.history.observations, |lane.challengeAudio|, lane.challengeDeviceId)
       case _ => Open(lane, |lane.history.held|)
  }

  lemma ChallengeReplays(env: Env, desk: Desk, obs: seq<Observation>, candidate: DeviceId, loud: bool)
    requires candidate != NO_DEVICE && candidate != desk.lane.route.deviceId
    requires desk.lane.history.observations == obs + [Observation(env.now, Some(candidate), loud, desk.lane.route.deviceId)]
    requires ChallengeOk(desk.lane.(history := desk.lane.history.(observations := obs)))
    ensures var (desk', decision) := Challenge(env, desk, candidate, loud);
            Correlated(desk'.lane, decision)
  {
    var o := Observation(env.now, Some(candidate), loud, desk.lane.route.deviceId);
    var lane := if desk.lane.challengeDeviceId != candidate then OpenChallenge(desk.lane, candidate) else desk.lane;
    assert HeldUnder(obs, |lane.history.held|, candidate);
    HeldFor(obs, o, |lane.history.held|, candidate);
    HeldFor(obs, o, 0, candidate);
    if Challenge(env, desk, candidate, loud).1 == Rebind {
      ChallengeResult(env, desk, candidate, loud);
    }
  }

  lemma CorrelateReplays(env: Env, desk: Desk, peak: real, allowChallenge: bool)
    requires ChallengeOk(desk.lane)
    ensures var (desk', decision) := Correlate(env, desk, peak, allowChallenge);
            Correlated(desk'.lane, decision)
  {
    var sole := TheOnly(Candidates(env.users, env.active));
    var loud := peak >= LOUD_PEAK;
    var seen := Observe(env, desk.lane, sole, loud);
    if sole.Some? && sole.value != desk.lane.route.deviceId {
      ChallengeReplays(env, Desk(ExpireClaim(env, desk.registry, sole.value), seen),
        desk.lane.history.observations, sole.value, loud);
    }
  }

  lemma {:induction false} TrimShrinks(audio: seq<Chunk>, total: int)
    ensures |TrimChallenge(audio, total).0| <= |audio|
    decreases |audio|
  {
    if total > CHALLENGE_SAMPLES && |audio| > 1 {
      TrimShrinks(audio[1..], total - |audio[0].samples|);
    }
  }

  lemma DeliverReplays(env: Env, desk: Desk, e: EntryId, samples: seq<real>, peak: real, allowChallenge: bool)
    requires ChallengeOk(desk.lane)
    ensures ChallengeOk(Deliver(env, desk, e, samples, peak, allowChallenge).lane)
  {
    CorrelateReplays(env, desk, peak, allowChallenge);
    var (correlated, decision) := Correlate(env, desk, peak, allowChallenge);
    var lane := correlated.lane;
    match decision
    case Drop =>
    case Hold => TrimShrinks(lane.challengeAudio + [Chunk(e, samples)], lane.challengeSamples + |samples|);
    case Send => PushKeeps(env, lane, e, samples);
    case Rebind =>
      FlushReplays(env, lane);
      PushKeeps(env, FlushChallenge(env, lane), e, samples);
  }
}
