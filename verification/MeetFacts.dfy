/** What the steps on one lane leave alone; shared by the proofs about the machine. */
module MeetFacts {
  import opened Wrappers
  import opened MeetState
  import opened CapturePolicy
  import opened PcmFraming
  import A = PcmArbitration

  lemma UpdatedTwice<K, V>(m: map<K, V>, k: K, a: V, b: V)
    ensures m[k := a][k := b] == m[k := b]
  {
  }

  /** Everything but the audio itself: publishing touches none of it. */
  predicate SameIdentity(lane: Lane, lane': Lane) {
    && lane'.source == lane.source
    && lane'.route == lane.route
    && lane'.vote == lane.vote
    && lane'.history == lane.history
    && lane'.challengeAudio == lane.challengeAudio
    && lane'.challengeSamples == lane.challengeSamples
    && lane'.challengeDeviceId == lane.challengeDeviceId
  }

  lemma {:induction false} OnBlocksKeeps(env: Env, lane: Lane, entry: Entry, e: EntryId, blocks: seq<seq<Sample>>)
    ensures SameIdentity(lane, OnBlocks(env, lane, entry, e, blocks))
    decreases |blocks|
  {
    if blocks != [] {
      OnBlocksKeeps(env, OnBlock(env, lane, entry, e, blocks[0]), entry, e, blocks[1..]);
    }
  }

  lemma PushKeeps(env: Env, lane: Lane, e: EntryId, samples: seq<real>)
    ensures SameIdentity(lane, PushPcm(env, lane, e, samples))
  {
    if env.running && e in env.entries {
      var present := lane.(buffers := lane.buffers[e := BufferOf(lane, e)]);
      OnBlocksKeeps(env, present, env.entries[e], e,
        Blocks(BufferOf(lane, e) + Stamp(samples, lane.route.generation)));
    }
  }

  lemma {:induction false} PushChunksKeeps(env: Env, lane: Lane, chunks: seq<Chunk>)
    ensures SameIdentity(lane, PushChunks(env, lane, chunks))
    decreases |chunks|
  {
    if chunks != [] {
      PushKeeps(env, lane, chunks[0].entry, chunks[0].samples);
      PushChunksKeeps(env, PushPcm(env, lane, chunks[0].entry, chunks[0].samples), chunks[1..]);
    }
  }

  lemma FlushKeeps(env: Env, lane: Lane)
    ensures SameIdentity(Replayed(lane), FlushChallenge(env, lane))
  {
    PushChunksKeeps(env, Replayed(lane), lane.challengeAudio);
  }

  /** The identity of a route as an owner change leaves it. */
  lemma AssignResult(env: Env, desk: Desk, next: DeviceId)
    ensures var lane' := Announce(env, AssignDevice(env, desk, next).lane);
            && lane'.source == desk.lane.source
            && lane'.route.deviceId == next
            && lane'.route.activityDeviceId == desk.lane.route.activityDeviceId
            && lane'.route.overriddenProtocolRawDeviceId == desk.lane.route.overriddenProtocolRawDeviceId
            && lane'.route.protocolRawDeviceId == desk.lane.route.protocolRawDeviceId
            && lane'.route.protocolStale == desk.lane.route.protocolStale
            && lane'.vote == desk.lane.vote
            && lane'.challengeAudio == desk.lane.challengeAudio
            && lane'.challengeDeviceId == desk.lane.challengeDeviceId
            && lane'.history == desk.lane.history.(owners :=
                 desk.lane.history.owners + if next == desk.lane.route.deviceId then [] else [next])
  {
  }

  /** The route after an update follows the resolution of what the protocol says now. */
  lemma UpdateRouteResult(env: Env, desk: Desk)
    ensures var read := ReadProtocol(env, desk.lane);
            var resolved := Resolve(read);
            var lane' := UpdateRoute(env, desk).lane;
            && lane'.source == desk.lane.source
            && lane'.route.deviceId == resolved.deviceId
            && lane'.route.activityDeviceId == resolved.activityDeviceId
            && lane'.route.overriddenProtocolRawDeviceId == resolved.overriddenProtocolRawDeviceId
            && lane'.route.protocolRawDeviceId == read.protocolRawDeviceId
            && lane'.route.protocolStale == read.protocolStale
            && lane'.history.owners == desk.lane.history.owners +
                 (if resolved.deviceId == desk.lane.route.deviceId then [] else [resolved.deviceId])
            && lane'.history.rebinds == desk.lane.history.rebinds
            && lane'.history.observations == desk.lane.history.observations
            && (lane'.vote == desk.lane.vote || lane'.vote == None)
            && (lane'.challengeDeviceId == desk.lane.challengeDeviceId || lane'.challengeDeviceId == NO_DEVICE)
  {
    var read := ReadProtocol(env, desk.lane);
    var resolved := Resolved(desk.lane, read);
    var deviceId := Resolve(read).deviceId;
    ResolvedResult(desk.lane, read);
    AssignResult(env, Desk(desk.registry, resolved), deviceId);
    var moved := AssignDevice(env, Desk(desk.registry, resolved), deviceId);
    var announced := Announce(env, moved.lane);
    FlushKeeps(env, announced.(vote := None));
    assert UpdateRoute(env, desk).lane == announced
        || UpdateRoute(env, desk).lane == FlushChallenge(env, announced.(vote := None));
  }

  lemma ResolvedResult(lane: Lane, read: Route)
    ensures var lane' := Resolved(lane, read);
            && lane'.source == lane.source && lane'.vote == lane.vote
            && lane'.route == read.(
                 activityDeviceId := Resolve(read).activityDeviceId,
                 overriddenProtocolRawDeviceId := Resolve(read).overriddenProtocolRawDeviceId)
            && lane'.history == lane.history.(held := lane'.history.held)
            && (lane'.challengeDeviceId == lane.challengeDeviceId || lane'.challengeDeviceId == NO_DEVICE)
  {
  }

  /** Correlation moves a route only by a rebind to the one candidate. */
  lemma CorrelateResult(env: Env, desk: Desk, peak: real, allowChallenge: bool)
    ensures var (desk', decision) := Correlate(env, desk, peak, allowChallenge);
            && desk'.lane.source == desk.lane.source
            && (decision != Rebind ==>
                  && desk'.lane.route == desk.lane.route
                  && desk'.lane.history.owners == desk.lane.history.owners
                  && desk'.lane.history.rebinds == desk.lane.history.rebinds)
            && (decision == Rebind ==>
                  && desk'.lane.route.deviceId in Candidates(env.users, env.active)
                  && desk'.lane.route.deviceId != desk.lane.route.deviceId
                  && desk'.lane.route.activityDeviceId == desk'.lane.route.deviceId
                  && desk'.lane.route.overriddenProtocolRawDeviceId == desk.lane.route.protocolRawDeviceId
                  && desk'.lane.history.owners == desk.lane.history.owners + [desk'.lane.route.deviceId]
                  && |desk'.lane.history.rebinds| == |desk.lane.history.rebinds| + 1)
  {
    var sole := TheOnly(Candidates(env.users, env.active));
    var loud := peak >= LOUD_PEAK;
    var lane := Observe(env, desk.lane, sole, loud);
    if Correlate(env, desk, peak, allowChallenge).1 == Rebind {
      var reg := ExpireClaim(env, desk.registry, sole.value);
      ChallengeResult(env, Desk(reg, lane), sole.value, loud);
      var open := if lane.challengeDeviceId != sole.value then OpenChallenge(lane, sole.value) else lane;
      var voted := open.(vote := Some(NextIdentityVote(open.vote, sole.value, env.now)));
      RebindResult(env, Desk(reg, voted), sole.value);
    }
  }

  lemma ChallengeResult(env: Env, desk: Desk, candidate: DeviceId, loud: bool)
    requires Challenge(env, desk, candidate, loud).1 == Rebind
    ensures var lane := if desk.lane.challengeDeviceId != candidate then OpenChallenge(desk.lane, candidate) else desk.lane;
            var vote := NextIdentityVote(lane.vote, candidate, env.now);
            && loud && IdentityVoteReady(vote)
            && Challenge(env, desk, candidate, loud).0 ==
               RebindRoute(env, Desk(desk.registry, lane.(vote := Some(vote))), candidate)
  {
  }

  lemma RebindResult(env: Env, desk: Desk, candidate: DeviceId)
    requires candidate != desk.lane.route.deviceId
    ensures var lane' := RebindRoute(env, desk, candidate).lane;
            && lane'.source == desk.lane.source
            && lane'.route.deviceId == candidate
            && lane'.route.activityDeviceId == candidate
            && lane'.route.overriddenProtocolRawDeviceId == desk.lane.route.protocolRawDeviceId
            && lane'.vote == None
            && lane'.history.owners == desk.lane.history.owners + [candidate]
            && |lane'.history.rebinds| == |desk.lane.history.rebinds| + 1
  {
  }

  // ---- Steps that move no route ----

  /** Every route is kept under its source, is listed in the order of creation, and is of an audio source. */
  predicate Listed(s: State) {
    forall src | src in s.lanes :: s.lanes[src].source == src && src in s.order && src != "" && src != "42"
  }

  /** No route changed its owner or its channel. */
  predicate SameRoutes(s: State, s': State) {
    && s'.lanes.Keys == s.lanes.Keys
    && forall src | src in s.lanes ::
         && s'.lanes[src].source == s.lanes[src].source && s'.lanes[src].route == s.lanes[src].route
         && s'.lanes[src].history.owners == s.lanes[src].history.owners
  }

  lemma QuietSteps(s: State, step: Step)
    requires Enabled(s, step)
    requires !step.NativePcm? && !step.EncodedFrame? && !step.EncodedPcm? && !step.UsersChanged? && !step.OutputsChanged?
    ensures var s' := Apply(s, step);
            && SameRoutes(s, s') && s'.env.users == s.env.users && s'.env.outputs == s.env.outputs
            && s'.registry.channels == s.registry.channels
            && s.registry.nextChannel <= s'.registry.nextChannel
  {
  }

  // ---- Steps as operations ----

  lemma DecodedIsStep(s: State, e: EntryId, src: Source, samples: seq<real>, peak: real, allowChallenge: bool)
    requires e in s.env.entries && s.env.entries[e].path == A.Encoded && src in s.lanes
    ensures Apply(s, EncodedPcm(e, src, samples, peak, allowChallenge)) ==
            ReceiveDecoded(s, e, src, samples, peak, allowChallenge)
  {
  }

  lemma FrameIsStep(s: State, e: EntryId, src: Source, level: Option<real>, candidate: bool,
                    native: Option<EntryId>, isSelf: bool)
    requires LiveTap(s.env, e)
    ensures Apply(s, EncodedFrame(e, src, level, candidate, native, isSelf)) ==
            ReceiveEncoded(s, e, src, level, candidate, native, isSelf)
  {
  }

  function NotOfTaps(entries: map<EntryId, Entry>, buffers: map<EntryId, Buffer>): map<EntryId, Buffer> {
    map e | e in buffers && !(e in entries && !entries[e].released && entries[e].path == A.Encoded) :: buffers[e]
  }

  /** A start deletes the partial blocks of live taps and no others. */
  lemma StartedBuffers(env: Env, lane: Lane)
    ensures StartedLane(env, lane).buffers == NotOfTaps(env.entries, lane.buffers)
  {
  }

  lemma AnnounceIsStep(s: State)
    ensures Apply(s, AnnounceAll) == s.(lanes := map src | src in s.lanes :: Announce(s.env, s.lanes[src]))
  {
  }

  // ---- Runs ----

  lemma {:induction false} UpdateRoutesKeepsEnv(s: State, order: seq<Source>)
    ensures UpdateRoutes(s, order).env == s.env
    decreases |order|
  {
    if order != [] {
      var s' := if order[0] in s.lanes then Put(s, UpdateRoute(s.env, Desk(s.registry, s.lanes[order[0]]))) else s;
      UpdateRoutesKeepsEnv(s', order[1..]);
    }
  }

  lemma RunStep(s: State, steps: seq<Step>, step: Step)
    ensures Run(s, steps + [step]) == Apply(Run(s, steps), step)
  {
    assert (steps + [step])[..|steps|] == steps;
  }

  lemma {:induction false} RunContinues(s: State, steps: seq<Step>, later: seq<Step>)
    ensures Run(s, steps + later) == Run(Run(s, steps), later)
    decreases |later|
  {
    if later == [] {
      assert steps + [] == steps;
    } else {
      var n := |later| - 1;
      assert (steps + later)[..|steps| + n] == steps + later[..n];
      RunContinues(s, steps, later[..n]);
    }
  }
}
