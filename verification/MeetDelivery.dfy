/**
 Where a decoded chunk goes, read off who is shown as speaking, what the route rests on and
 which confirmations stand: it is published, dropped, held, or won by the challenger.
 */
module MeetDelivery {
  import opened Wrappers
  import opened CapturePolicy
  import opened MeetState
  import opened MeetFacts
  import opened MeetEvidence
  import opened MeetHolding
  import A = PcmArbitration

  // ---- What decides ----

  function People(env: Env): set<DeviceId> {
    Candidates(env.users, env.active)
  }

  predicate Alone(env: Env, d: DeviceId) {
    People(env) == {d}
  }

  /** The identity of the route is backed by activity or by a mapping that is not stale. */
  predicate Trusted(route: Route) {
    route.activityDeviceId != NO_DEVICE || !route.protocolStale
  }

  /** Somebody else is alone, may challenge the owner, and is nobody's by a recent standing confirmation. */
  predicate Challenges(env: Env, desk: Desk, allowChallenge: bool, d: DeviceId) {
    var owner := desk.lane.route.deviceId;
    && Alone(env, d) && d != owner
    && allowChallenge && (owner == NO_DEVICE || d in env.users)
    && Unclaimed(desk.registry.claimLog, desk.lane.source, d, env.now)
  }

  /** Unless somebody challenges it, the route can be relied on. */
  predicate Reliable(env: Env, lane: Lane, allowChallenge: bool) {
    var owner := lane.route.deviceId;
    || Alone(env, owner)
    || (Trusted(lane.route) && (|People(env)| != 1 || owner != NO_DEVICE))
    || (owner == NO_DEVICE && |People(env)| == 1 && !allowChallenge)
  }

  /** One more loud agreement makes the challenger the owner. */
  predicate Wins(env: Env, lane: Lane, d: DeviceId, peak: real) {
    && peak >= LOUD_PEAK && lane.challengeDeviceId == d
    && IdentityVoteReady(NextIdentityVote(lane.vote, d, env.now))
  }

  // ---- What becomes of the chunk ----

  function Seen(env: Env, lane: Lane, peak: real): seq<Observation> {
    lane.history.observations + [Observation(env.now, TheOnly(People(env)), peak >= LOUD_PEAK, lane.route.deviceId)]
  }

  /** The lane without a challenge and with one more observation. */
  function Settled(env: Env, lane: Lane, peak: real): Lane {
    lane.(vote := None, challengeAudio := [], challengeSamples := 0, challengeDeviceId := NO_DEVICE,
          history := lane.history.(held := [], observations := Seen(env, lane, peak)))
  }

  /** The challenge goes on, unless it is another one or its vote expired in silence. */
  predicate GoesOn(env: Env, lane: Lane, d: DeviceId, peak: real) {
    && lane.challengeDeviceId == d
    && (peak >= LOUD_PEAK || lane.vote.None? || IdentityVoteFresh(lane.vote.value, env.now))
  }

  /** The chunk is last in line for `d`, and nothing else is touched but what is kept of the line and the vote. */
  predicate Lined(env: Env, lane: Lane, lane': Lane, d: DeviceId, peak: real, c: Chunk) {
    && lane' == lane.(challengeDeviceId := d, challengeAudio := lane'.challengeAudio, vote := lane'.vote,
                      challengeSamples := lane'.challengeSamples, history := lane'.history)
    && lane'.history == lane.history.(
         held := (if GoesOn(env, lane, d, peak) then lane.history.held else []) + [c],
         observations := Seen(env, lane, peak))
    && lane'.vote == (if peak >= LOUD_PEAK
                      then Some(NextIdentityVote(if lane.challengeDeviceId == d then lane.vote else None, d, env.now))
                      else if GoesOn(env, lane, d, peak) then lane.vote else None)
  }

  /** The chunk is the last of those held for `d`, as many as may be held. */
  predicate HeldFor(env: Env, lane: Lane, lane': Lane, d: DeviceId, peak: real, c: Chunk) {
    Lined(env, lane, lane', d, peak, c) && KeepsLongest(lane')
  }

  /** The lane right after `d` took it over: nothing of the former owner waits in a live buffer. */
  predicate TakenOver(env: Env, lane: Lane, lane': Lane, d: DeviceId) {
    && lane'.source == lane.source
    && lane'.route == lane.route.(deviceId := d, activityDeviceId := d, generation := lane.route.generation + 1,
                                  overriddenProtocolRawDeviceId := lane.route.protocolRawDeviceId,
                                  channel := lane'.route.channel)
    && lane'.challengeAudio == [] && lane'.challengeSamples == 0 && lane'.challengeDeviceId == NO_DEVICE
    && lane'.vote == None && lane'.history.held == [] && lane'.history.owners == lane.history.owners + [d]
    && lane'.ledger == A.Forget(lane.ledger, TappedReceivers(env))
    && lane'.buffers == (map e | e in lane.buffers && !Live(env, e) :: lane.buffers[e])
    && lane'.pendingAudio == (if env.running then [] else lane.pendingAudio)
    && lane'.posted == lane.posted + (if env.running then OnChannel(lane.pendingAudio, lane'.route.channel) else [])
  }

  /** `d` takes the lane over, and what was held is pushed before the chunk. */
  ghost predicate WonBy(env: Env, lane: Lane, lane': Lane, d: DeviceId, c: Chunk) {
    exists taken: Lane :: TakenOver(env, lane, taken, d) && lane' == PushChunks(env, taken, lane.challengeAudio + [c])
  }

  /** What is confirmed and lost with the chunk. */
  predicate Claims(env: Env, desk: Desk, reg': Registry, peak: real, allowChallenge: bool) {
    var src, owner, log := desk.lane.source, desk.lane.route.deviceId, desk.registry.claimLog;
    reg'.claimLog == log +
      if Alone(env, owner) && peak >= LOUD_PEAK then [Confirmed(src, owner, env.now)]
      else
        var sole := TheOnly(People(env));
        if sole.Some? && Challenges(env, desk, allowChallenge, sole.value) && Wins(env, desk.lane, sole.value, peak)
        then [Lost(src, owner), Confirmed(src, sole.value, env.now)] else []
  }

  /** Where the chunk goes, and what is said of the claims. */
  ghost predicate Goes(env: Env, desk: Desk, desk': Desk, c: Chunk, peak: real, allowChallenge: bool) {
    && (forall d | Challenges(env, desk, allowChallenge, d) ::
          if Wins(env, desk.lane, d, peak) then WonBy(env, desk.lane, desk'.lane, d, c)
          else HeldFor(env, desk.lane, desk'.lane, d, peak, c))
    && ((forall d :: !Challenges(env, desk, allowChallenge, d)) ==>
          desk'.lane == if Reliable(env, desk.lane, allowChallenge)
                        then PushPcm(env, Settled(env, desk.lane, peak), c.entry, c.samples)
                        else Settled(env, desk.lane, peak))
    && Claims(env, desk, desk'.registry, peak, allowChallenge)
  }

  // ---- Proofs ----

  lemma AloneIsSole(env: Env, d: DeviceId)
    ensures Alone(env, d) <==> TheOnly(People(env)) == Some(d)
  {
  }

  /** Whoever challenges reaches the challenge of the route. */
  lemma CorrelateChallenges(env: Env, desk: Desk, d: DeviceId, peak: real, allowChallenge: bool)
    requires ClaimsOk(desk.registry, env.now) && Challenges(env, desk, allowChallenge, d)
    ensures TheOnly(People(env)) == Some(d)
    ensures Correlate(env, desk, peak, allowChallenge) ==
            Challenge(env, Desk(ExpireClaim(env, desk.registry, d), Observe(env, desk.lane, Some(d), peak >= LOUD_PEAK)),
                      d, peak >= LOUD_PEAK)
  {
    AloneIsSole(env, d);
    CandidateNamed(env, d);
    ClaimedElsewhereExactly(env, desk.registry, desk.lane.source, d);
  }

  lemma ChallengeLines(env: Env, reg: Registry, lane: Lane, d: DeviceId, peak: real, c: Chunk)
    requires TheOnly(People(env)) == Some(d) && !Wins(env, lane, d, peak)
    ensures var at := Challenge(env, Desk(reg, Observe(env, lane, Some(d), peak >= LOUD_PEAK)), d, peak >= LOUD_PEAK);
            && at.1 == Hold && at.0.registry == reg && SameOrCleared(lane, at.0.lane)
            && Lined(env, lane, HoldPcm(at.0.lane, c.entry, c.samples), d, peak, c)
  {
  }

  lemma LinedIsHeld(env: Env, lane: Lane, waiting: Lane, d: DeviceId, peak: real, c: Chunk)
    requires KeepsLongest(lane) && SameOrCleared(lane, waiting)
    requires Lined(env, lane, HoldPcm(waiting, c.entry, c.samples), d, peak, c)
    ensures HeldFor(env, lane, HoldPcm(waiting, c.entry, c.samples), d, peak, c)
  {
    SameOrClearedKeeps(lane, waiting);
    HoldKeepsLongest(waiting, c.entry, c.samples);
  }

  lemma HeldGoes(env: Env, desk: Desk, d: DeviceId, c: Chunk, peak: real, allowChallenge: bool)
    requires ClaimsOk(desk.registry, env.now) && KeepsLongest(desk.lane)
    requires Challenges(env, desk, allowChallenge, d) && !Wins(env, desk.lane, d, peak)
    ensures HeldFor(env, desk.lane, Deliver(env, desk, c.entry, c.samples, peak, allowChallenge).lane, d, peak, c)
    ensures Deliver(env, desk, c.entry, c.samples, peak, allowChallenge).registry.claimLog == desk.registry.claimLog
  {
    var reg := ExpireClaim(env, desk.registry, d);
    CorrelateChallenges(env, desk, d, peak, allowChallenge);
    ChallengeLines(env, reg, desk.lane, d, peak, c);
    LinedIsHeld(env, desk.lane, Correlate(env, desk, peak, allowChallenge).0.lane, d, peak, c);
  }

  lemma QuietGoes(env: Env, desk: Desk, c: Chunk, peak: real, allowChallenge: bool)
    requires ClaimsOk(desk.registry, env.now)
    requires forall d :: !Challenges(env, desk, allowChallenge, d)
    ensures var desk' := Deliver(env, desk, c.entry, c.samples, peak, allowChallenge);
            && desk'.lane == (if Reliable(env, desk.lane, allowChallenge)
                              then PushPcm(env, Settled(env, desk.lane, peak), c.entry, c.samples)
                              else Settled(env, desk.lane, peak))
            && Claims(env, desk, desk'.registry, peak, allowChallenge)
  {
    var sole := TheOnly(People(env));
    if sole.Some? {
      AloneIsSole(env, sole.value);
      assert !Challenges(env, desk, allowChallenge, sole.value);
      ClaimedElsewhereExactly(env, desk.registry, desk.lane.source, sole.value);
    }
  }

  lemma AssignTakesOver(env: Env, desk: Desk, d: DeviceId)
    requires d != NO_DEVICE && d != desk.lane.route.deviceId
    ensures var lane, taken := desk.lane, Replayed(RebindRoute(env, desk, d).lane);
            TakenOver(env, lane, taken, d)
            && RebindRoute(env, desk, d).lane.challengeAudio == lane.challengeAudio
            && RebindRoute(env, desk, d).registry.claimLog ==
               desk.registry.claimLog + [Lost(lane.source, lane.route.deviceId), Confirmed(lane.source, d, env.now)]
  {
  }

  lemma VotedTakesOver(env: Env, lane: Lane, voted: Lane, taken: Lane, d: DeviceId)
    requires TakenOver(env, voted, taken, d)
    requires voted == lane.(vote := voted.vote, history := voted.history) && voted.history.owners == lane.history.owners
    ensures TakenOver(env, lane, taken, d)
  {
  }

  lemma WonGoes(env: Env, desk: Desk, d: DeviceId, c: Chunk, peak: real, allowChallenge: bool)
    requires ClaimsOk(desk.registry, env.now)
    requires Challenges(env, desk, allowChallenge, d) && Wins(env, desk.lane, d, peak)
    ensures var desk' := Deliver(env, desk, c.entry, c.samples, peak, allowChallenge);
            && WonBy(env, desk.lane, desk'.lane, d, c)
            && desk'.registry.claimLog == desk.registry.claimLog +
                 [Lost(desk.lane.source, desk.lane.route.deviceId), Confirmed(desk.lane.source, d, env.now)]
  {
    CandidateNamed(env, d);
    CorrelateChallenges(env, desk, d, peak, allowChallenge);
    var seen := Observe(env, desk.lane, Some(d), true);
    var voted := seen.(vote := Some(NextIdentityVote(seen.vote, d, env.now)));
    var reg := ExpireClaim(env, desk.registry, d);
    var rebound := RebindRoute(env, Desk(reg, voted), d);
    assert Correlate(env, desk, peak, allowChallenge) == (rebound, Rebind);
    AssignTakesOver(env, Desk(reg, voted), d);
    VotedTakesOver(env, desk.lane, voted, Replayed(rebound.lane), d);
    PushChunksAppends(env, Replayed(rebound.lane), rebound.lane.challengeAudio, c);
  }

  /** An update confirms the challenger it makes the owner, after the loss of the former one. */
  lemma UpdateClaimsExactly(env: Env, desk: Desk)
    ensures var desk' := UpdateRoute(env, desk);
            var src, owner, owner' := desk.lane.source, desk.lane.route.deviceId, desk'.lane.route.deviceId;
            desk'.registry.claimLog == desk.registry.claimLog
              + (if owner' != owner then [Lost(src, owner)] else [])
              + (if owner' != NO_DEVICE && owner' == desk.lane.challengeDeviceId && desk.lane.challengeAudio != []
                 then [Confirmed(src, owner', env.now)] else [])
  {
    var read := ReadProtocol(env, desk.lane);
    var resolved, next := Resolved(desk.lane, read), Resolve(read).deviceId;
    ResolvedResult(desk.lane, read);
    UpdateRouteResult(env, desk);
    AssignClaimsExactly(env, Desk(desk.registry, resolved), next);
    assert AssignDevice(env, Desk(desk.registry, resolved), next).registry.claimLog + []
        == AssignDevice(env, Desk(desk.registry, resolved), next).registry.claimLog;
  }

  lemma AssignClaimsExactly(env: Env, desk: Desk, next: DeviceId)
    ensures AssignDevice(env, desk, next).registry.claimLog == desk.registry.claimLog +
              if next == desk.lane.route.deviceId then [] else [Lost(desk.lane.source, desk.lane.route.deviceId)]
  {
  }

  // ---- Main result ----

  /**
   Every decoded chunk, in any state: a challenger who is alone gets it held, and wins with
   it at the last vote; otherwise it is published exactly if the route can be relied on.
   */
  lemma ChunkGoesExactly(env: Env, desk: Desk, c: Chunk, peak: real, allowChallenge: bool)
    requires ClaimsOk(desk.registry, env.now) && KeepsLongest(desk.lane)
    ensures Goes(env, desk, Deliver(env, desk, c.entry, c.samples, peak, allowChallenge), c, peak, allowChallenge)
  {
    if d :| Challenges(env, desk, allowChallenge, d) {
      AloneIsSole(env, d);
      if Wins(env, desk.lane, d, peak) {
        WonGoes(env, desk, d, c, peak, allowChallenge);
      } else {
        HeldGoes(env, desk, d, c, peak, allowChallenge);
      }
    } else {
      QuietGoes(env, desk, c, peak, allowChallenge);
    }
  }
}
