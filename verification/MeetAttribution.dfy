/**
 Attribution over whole runs: no published block mixes samples accepted under two
 owners of its source, and it goes out on the channel of its owner.
 */
module MeetAttribution {
  import opened Wrappers
  import opened CapturePolicy
  import opened MeetFacts
  import opened MeetState
  import opened PcmFraming
  import A = PcmArbitration

  // ---- What attribution means ----

  predicate OfGeneration(block: seq<Sample>, generation: nat) {
    forall i | 0 <= i < |block| :: block[i].generation == generation
  }

  /** The owner that audio of generation `g` belongs to: the first one if none was known yet. */
  function OwnerOf(owners: seq<DeviceId>, g: nat): DeviceId {
    if g >= |owners| then NO_DEVICE
    else if owners[g] != NO_DEVICE then owners[g]
    else if g + 1 < |owners| then owners[g + 1] else NO_DEVICE
  }

  predicate OnChannelOf(channels: map<DeviceId, Channel>, channel: Channel, deviceId: DeviceId) {
    deviceId != NO_DEVICE && deviceId in channels && channels[deviceId] == channel
  }

  /** All samples were accepted in one generation, and the block is on its owner's channel. */
  predicate Placed(channels: map<DeviceId, Channel>, owners: seq<DeviceId>, a: Audio) {
    && |a.block| == BLOCK
    && OfGeneration(a.block, a.block[0].generation)
    && OnChannelOf(channels, a.channel, OwnerOf(owners, a.block[0].generation))
  }

  predicate Attributed(s: State) {
    forall src, a | src in s.lanes && a in s.lanes[src].posted ::
      Placed(s.registry.channels, s.lanes[src].history.owners, a)
  }

  // ---- Invariant ----

  predicate RegistryOk(reg: Registry) {
    && (forall d | d in reg.channels :: d != NO_DEVICE && reg.channels[d] < reg.nextChannel)
    && (forall d, e | d in reg.channels && e in reg.channels :: reg.channels[d] == reg.channels[e] ==> d == e)
  }

  predicate Extends(channels: map<DeviceId, Channel>, channels': map<DeviceId, Channel>) {
    forall d | d in channels :: d in channels' && channels'[d] == channels[d]
  }

  predicate Grows(reg: Registry, reg': Registry) {
    reg.nextChannel <= reg'.nextChannel && Extends(reg.channels, reg'.channels)
  }

  predicate OwnersOk(reg: Registry, lane: Lane) {
    var owners := lane.history.owners;
    && |owners| == lane.route.generation + 1
    && owners[lane.route.generation] == lane.route.deviceId
    && (forall g | 0 <= g < lane.route.generation :: owners[g] != owners[g + 1])
    && (forall g | 0 <= g < |owners| && owners[g] != NO_DEVICE :: owners[g] in reg.channels)
  }

  predicate ChannelOk(reg: Registry, lane: Lane) {
    && lane.route.channel < reg.nextChannel
    && (lane.route.deviceId != NO_DEVICE ==> OnChannelOf(reg.channels, lane.route.channel, lane.route.deviceId))
  }

  predicate BuffersOk(env: Env, lane: Lane) {
    forall e | e in lane.buffers ::
      && e in env.entries
      && (Live(env, e) ==> OfGeneration(lane.buffers[e], lane.route.generation))
  }

  predicate PostedOk(reg: Registry, lane: Lane) {
    forall a | a in lane.posted :: Placed(reg.channels, lane.history.owners, a)
  }

  predicate CoreOk(env: Env, reg: Registry, lane: Lane) {
    OwnersOk(reg, lane) && ChannelOk(reg, lane) && BuffersOk(env, lane) && PostedOk(reg, lane)
  }

  /** A block framed in a generation that had no owner. */
  predicate Unowned(lane: Lane, block: seq<Sample>) {
    && |block| == BLOCK
    && OfGeneration(block, block[0].generation)
    && block[0].generation < |lane.history.owners|
    && lane.history.owners[block[0].generation] == NO_DEVICE
  }

  predicate PendingUnowned(lane: Lane) {
    forall b | b in lane.pendingAudio :: Unowned(lane, b)
  }

  predicate PendingOfGeneration(lane: Lane, generation: int) {
    forall b: seq<Sample> | b in lane.pendingAudio :: |b| == BLOCK && b[0].generation == generation
  }

  predicate LaneOk(env: Env, reg: Registry, lane: Lane) {
    && CoreOk(env, reg, lane)
    && PendingUnowned(lane)
    && (env.running ==> PendingOfGeneration(lane, lane.route.generation))
  }

  predicate StateOk(s: State) {
    && RegistryOk(s.registry)
    && (forall src | src in s.lanes :: s.lanes[src].source == src && LaneOk(s.env, s.registry, s.lanes[src]))
  }

  // ---- Growth ----

  lemma PlacedGrows(channels: map<DeviceId, Channel>, channels': map<DeviceId, Channel>,
                    owners: seq<DeviceId>, owners': seq<DeviceId>, a: Audio)
    requires Placed(channels, owners, a)
    requires Extends(channels, channels') && owners <= owners'
    ensures Placed(channels', owners', a)
  {
    var g := a.block[0].generation;
    assert owners'[g] == owners[g];
    if g + 1 < |owners| {
      assert owners'[g + 1] == owners[g + 1];
    }
  }

  lemma LaneSurvivesGrowth(env: Env, reg: Registry, reg': Registry, lane: Lane)
    requires LaneOk(env, reg, lane) && Grows(reg, reg')
    ensures LaneOk(env, reg', lane)
  {
    forall a | a in lane.posted ensures Placed(reg'.channels, lane.history.owners, a) {
      PlacedGrows(reg.channels, reg'.channels, lane.history.owners, lane.history.owners, a);
    }
  }

  // ---- Publishing keeps the lane well-formed ----

  lemma PutFrameOk(env: Env, reg: Registry, lane: Lane, block: seq<Sample>)
    requires LaneOk(env, reg, lane) && |block| == BLOCK && OfGeneration(block, lane.route.generation)
    ensures LaneOk(env, reg, PutFrame(lane, block))
  {
    var lane' := PutFrame(lane, block);
    if lane.route.deviceId != NO_DEVICE {
      var a := Audio(lane.route.channel, block);
      assert Placed(reg.channels, lane.history.owners, a);
      assert lane'.posted == lane.posted + [a];
    } else {
      forall b: seq<Sample> | b in lane'.pendingAudio
        ensures Unowned(lane', b)
        ensures env.running ==> b[0].generation == lane.route.generation
      {
        assert b in lane.pendingAudio || b == block;
      }
    }
  }

  /** Outside an owner change there is nothing to release: waiting blocks mean no owner. */
  lemma AnnounceOk(env: Env, reg: Registry, lane: Lane)
    requires LaneOk(env, reg, lane)
    ensures Announce(env, lane) == lane
  {
    if env.running && lane.pendingAudio != [] {
      assert lane.pendingAudio[0] in lane.pendingAudio;
    }
  }

  lemma OnBlockOk(env: Env, reg: Registry, lane: Lane, entry: Entry, e: EntryId, block: seq<Sample>)
    requires LaneOk(env, reg, lane) && |block| == BLOCK
    requires entry.released || OfGeneration(block, lane.route.generation)
    ensures var lane' := OnBlock(env, lane, entry, e, block);
            LaneOk(env, reg, lane') && lane'.route == lane.route
  {
    var accepted := AcceptBlock(env, lane, entry, e);
    assert LaneOk(env, reg, accepted);
    AnnounceOk(env, reg, accepted);
    if !entry.released {
      PutFrameOk(env, reg, accepted, block);
    }
  }

  lemma {:induction false} OnBlocksOk(env: Env, reg: Registry, lane: Lane, entry: Entry, e: EntryId, blocks: seq<seq<Sample>>)
    requires LaneOk(env, reg, lane)
    requires forall b | b in blocks :: |b| == BLOCK && (entry.released || OfGeneration(b, lane.route.generation))
    ensures var lane' := OnBlocks(env, lane, entry, e, blocks);
            LaneOk(env, reg, lane') && lane'.route == lane.route
    decreases |blocks|
  {
    if blocks != [] {
      OnBlockOk(env, reg, lane, entry, e, blocks[0]);
      OnBlocksOk(env, reg, OnBlock(env, lane, entry, e, blocks[0]), entry, e, blocks[1..]);
    }
  }

  lemma {:induction false} SplitKeepsGeneration(stream: seq<Sample>, generation: nat)
    requires OfGeneration(stream, generation)
    ensures forall b | b in Blocks(stream) :: |b| == BLOCK && OfGeneration(b, generation)
    ensures OfGeneration(Residue(stream), generation)
    decreases |stream|
  {
    if |stream| >= BLOCK {
      SplitKeepsGeneration(stream[BLOCK..], generation);
    }
  }

  lemma StoreBufferOk(env: Env, reg: Registry, lane: Lane, e: EntryId, buffer: seq<Sample>)
    requires LaneOk(env, reg, lane) && e in env.entries && |buffer| < BLOCK
    requires Live(env, e) ==> OfGeneration(buffer, lane.route.generation)
    ensures LaneOk(env, reg, lane.(buffers := lane.buffers[e := buffer]))
  {
    var lane' := lane.(buffers := lane.buffers[e := buffer]);
    assert BuffersOk(env, lane');
    assert PendingUnowned(lane') by {
      forall b | b in lane'.pendingAudio ensures Unowned(lane', b) {
        assert Unowned(lane, b);
      }
    }
  }

  /** The stream of one buffer continues in the generation it began in. */
  lemma StreamOk(env: Env, reg: Registry, lane: Lane, e: EntryId, samples: seq<real>)
    requires LaneOk(env, reg, lane) && e in env.entries
    ensures var stream := BufferOf(lane, e) + Stamp(samples, lane.route.generation);
            && (forall b | b in Blocks(stream) ::
                  |b| == BLOCK && (env.entries[e].released || OfGeneration(b, lane.route.generation)))
            && (Live(env, e) ==> OfGeneration(Residue(stream), lane.route.generation))
  {
    var stream := BufferOf(lane, e) + Stamp(samples, lane.route.generation);
    BlocksAreFull(stream);
    if Live(env, e) {
      SplitKeepsGeneration(stream, lane.route.generation);
    }
  }

  lemma PushOk(env: Env, reg: Registry, lane: Lane, e: EntryId, samples: seq<real>)
    requires LaneOk(env, reg, lane)
    ensures var lane' := PushPcm(env, lane, e, samples);
            LaneOk(env, reg, lane') && lane'.route == lane.route
  {
    if env.running && e in env.entries {
      var stream := BufferOf(lane, e) + Stamp(samples, lane.route.generation);
      var present := lane.(buffers := lane.buffers[e := BufferOf(lane, e)]);
      StoreBufferOk(env, reg, lane, e, BufferOf(lane, e));
      StreamOk(env, reg, lane, e, samples);
      OnBlocksOk(env, reg, present, env.entries[e], e, Blocks(stream));
      StoreBufferOk(env, reg, OnBlocks(env, present, env.entries[e], e, Blocks(stream)), e, Residue(stream));
    }
  }

  lemma {:induction false} PushChunksOk(env: Env, reg: Registry, lane: Lane, chunks: seq<Chunk>)
    requires LaneOk(env, reg, lane)
    ensures var lane' := PushChunks(env, lane, chunks);
            LaneOk(env, reg, lane') && lane'.route == lane.route
    decreases |chunks|
  {
    if chunks != [] {
      PushOk(env, reg, lane, chunks[0].entry, chunks[0].samples);
      PushChunksOk(env, reg, PushPcm(env, lane, chunks[0].entry, chunks[0].samples), chunks[1..]);
    }
  }

  // ---- Owner changes ----

  /** A device keeps the channel it has, and a new device gets one that nobody else has. */
  lemma RegisterChannelOk(reg: Registry, route: Route, next: DeviceId)
    requires RegistryOk(reg) && route.channel < reg.nextChannel
    ensures var reg' := RegisterChannel(reg, route, next);
            && RegistryOk(reg') && Grows(reg, reg')
            && ChannelFor(reg, route, next) < reg'.nextChannel
            && (next != NO_DEVICE ==> OnChannelOf(reg'.channels, ChannelFor(reg, route, next), next))
  {
  }

  lemma AssignOk(env: Env, desk: Desk, next: DeviceId)
    requires RegistryOk(desk.registry) && CoreOk(env, desk.registry, desk.lane)
    ensures var desk' := AssignDevice(env, desk, next);
            && RegistryOk(desk'.registry) && Grows(desk.registry, desk'.registry)
            && CoreOk(env, desk'.registry, desk'.lane)
            && desk'.lane.route.deviceId == next
            && desk'.lane.pendingAudio == desk.lane.pendingAudio
            && desk.lane.history.owners <= desk'.lane.history.owners
            && desk'.lane.source == desk.lane.source
            && desk'.lane.route.generation ==
               desk.lane.route.generation + if next == desk.lane.route.deviceId then 0 else 1
  {
    if next != desk.lane.route.deviceId {
      var lane := desk.lane;
      var desk' := AssignDevice(env, desk, next);
      RegisterChannelOk(DropClaim(desk.registry, lane.source, lane.route.deviceId), lane.route, next);
      forall a | a in desk'.lane.posted
        ensures Placed(desk'.registry.channels, desk'.lane.history.owners, a)
      {
        PlacedGrows(desk.registry.channels, desk'.registry.channels, lane.history.owners, desk'.lane.history.owners, a);
      }
    }
  }

  /** The released blocks follow what was posted before, each on the route's channel. */
  lemma ReleasedBlocks(env: Env, lane: Lane, a: Audio)
    ensures a in Announce(env, lane).posted <==>
              || a in lane.posted
              || (env.running && lane.route.deviceId != NO_DEVICE
                  && a.channel == lane.route.channel && a.block in lane.pendingAudio)
  {
    var pending, released := lane.pendingAudio, OnChannel(lane.pendingAudio, lane.route.channel);
    if a in released {
      var i :| 0 <= i < |released| && released[i] == a;
      assert a.block == pending[i];
    }
    if a.channel == lane.route.channel && a.block in pending {
      var i :| 0 <= i < |pending| && pending[i] == a.block;
      assert released[i] == a;
    }
  }

  /** Right after the owner changed, the waiting blocks are of the generation before it. */
  lemma AnnounceAfterAssign(env: Env, reg: Registry, lane: Lane)
    requires CoreOk(env, reg, lane) && PendingUnowned(lane)
    requires env.running && lane.route.deviceId != NO_DEVICE ==> PendingOfGeneration(lane, lane.route.generation - 1)
    requires env.running && lane.route.deviceId == NO_DEVICE ==> PendingOfGeneration(lane, lane.route.generation)
    ensures LaneOk(env, reg, Announce(env, lane))
    ensures Announce(env, lane).route == lane.route
    ensures Announce(env, lane).history == lane.history
  {
    var lane' := Announce(env, lane);
    forall a | a in lane'.posted ensures Placed(reg.channels, lane.history.owners, a) {
      ReleasedBlocks(env, lane, a);
      if a !in lane.posted {
        assert Unowned(lane, a.block);
      }
    }
  }

  lemma AssignAndAnnounceOk(env: Env, desk: Desk, next: DeviceId)
    requires RegistryOk(desk.registry) && LaneOk(env, desk.registry, desk.lane)
    ensures var desk' := AssignDevice(env, desk, next);
            && RegistryOk(desk'.registry) && Grows(desk.registry, desk'.registry)
            && LaneOk(env, desk'.registry, Announce(env, desk'.lane))
            && desk'.lane.source == desk.lane.source
  {
    AssignOk(env, desk, next);
    var desk' := AssignDevice(env, desk, next);
    AnnounceOk(env, desk.registry, desk.lane);
    if desk.lane.pendingAudio != [] && env.running {
      assert desk.lane.pendingAudio[0] in desk.lane.pendingAudio;
      assert desk.lane.route.deviceId == NO_DEVICE;
    }
    AnnounceAfterAssign(env, desk'.registry, desk'.lane);
  }

  // ---- Steps on one lane ----

  /** Nothing that attribution depends on changed. */
  predicate SameAudio(lane: Lane, lane': Lane) {
    && lane'.source == lane.source
    && lane'.route.deviceId == lane.route.deviceId
    && lane'.route.generation == lane.route.generation
    && lane'.route.channel == lane.route.channel
    && lane'.pendingAudio == lane.pendingAudio
    && lane'.buffers == lane.buffers
    && lane'.posted == lane.posted
    && lane'.history.owners == lane.history.owners
  }

  lemma SameAudioOk(env: Env, reg: Registry, lane: Lane, lane': Lane)
    requires LaneOk(env, reg, lane) && SameAudio(lane, lane')
    ensures LaneOk(env, reg, lane')
  {
    forall b | b in lane'.pendingAudio ensures Unowned(lane', b) {
      assert Unowned(lane, b);
    }
  }

  /** The result of a step on one lane: well-formed, and no channel was taken back. */
  predicate DeskOk(env: Env, reg: Registry, desk: Desk) {
    RegistryOk(desk.registry) && Grows(reg, desk.registry) && LaneOk(env, desk.registry, desk.lane)
  }

  lemma UpdateRouteOk(env: Env, desk: Desk)
    requires RegistryOk(desk.registry) && LaneOk(env, desk.registry, desk.lane)
    ensures DeskOk(env, desk.registry, UpdateRoute(env, desk))
    ensures UpdateRoute(env, desk).lane.source == desk.lane.source
  {
    var read := ReadProtocol(env, desk.lane);
    var deviceId := Resolve(read).deviceId;
    var resolved := Resolved(desk.lane, read);
    SameAudioOk(env, desk.registry, desk.lane, resolved);
    AssignAndAnnounceOk(env, Desk(desk.registry, resolved), deviceId);
    var moved := AssignDevice(env, Desk(desk.registry, resolved), deviceId);
    FlushOk(env, Confirm(moved.registry, desk.lane.source, deviceId, env.now), moved.registry,
            Announce(env, moved.lane), Announce(env, moved.lane).(vote := None));
  }

  lemma FlushOk(env: Env, reg: Registry, before: Registry, lane: Lane, lane': Lane)
    requires LaneOk(env, before, lane) && SameAudio(lane, lane')
    requires reg.channels == before.channels && reg.nextChannel == before.nextChannel
    ensures LaneOk(env, reg, FlushChallenge(env, lane'))
    ensures FlushChallenge(env, lane').source == lane.source
  {
    LaneSurvivesGrowth(env, before, reg, lane);
    SameAudioOk(env, reg, lane, Replayed(lane'));
    PushChunksOk(env, reg, Replayed(lane'), lane'.challengeAudio);
    FlushKeeps(env, lane');
  }

  lemma CreateRouteOk(env: Env, reg: Registry, src: Source)
    requires RegistryOk(reg)
    ensures DeskOk(env, reg, CreateRoute(env, reg, src))
    ensures CreateRoute(env, reg, src).lane.source == src
  {
  }

  lemma CorrelateOk(env: Env, desk: Desk, peak: real, allowChallenge: bool)
    requires RegistryOk(desk.registry) && LaneOk(env, desk.registry, desk.lane)
    ensures var (desk', _) := Correlate(env, desk, peak, allowChallenge);
            DeskOk(env, desk.registry, desk') && desk'.lane.source == desk.lane.source
  {
    var (desk', decision) := Correlate(env, desk, peak, allowChallenge);
    if decision != Rebind {
      CorrelateKeepsAudio(env, desk, peak, allowChallenge);
      LaneSurvivesGrowth(env, desk.registry, desk'.registry, desk.lane);
      SameAudioOk(env, desk'.registry, desk.lane, desk'.lane);
    } else {
      var sole := TheOnly(Candidates(env.users, env.active));
      var lane := Observe(env, desk.lane, sole, true);
      SameAudioOk(env, desk.registry, desk.lane, lane);
      ChallengeOk(env, Desk(ExpireClaim(env, desk.registry, sole.value), lane), sole.value);
    }
  }

  lemma CorrelateKeepsAudio(env: Env, desk: Desk, peak: real, allowChallenge: bool)
    requires Correlate(env, desk, peak, allowChallenge).1 != Rebind
    ensures var (desk', _) := Correlate(env, desk, peak, allowChallenge);
            && SameAudio(desk.lane, desk'.lane)
            && desk'.registry.channels == desk.registry.channels
            && desk'.registry.nextChannel == desk.registry.nextChannel
  {
    var sole := TheOnly(Candidates(env.users, env.active));
    var lane := Observe(env, desk.lane, sole, peak >= LOUD_PEAK);
    CorrelateWithKeepsAudio(env, Desk(desk.registry, lane), sole, peak >= LOUD_PEAK, allowChallenge);
  }

  lemma CorrelateWithKeepsAudio(env: Env, desk: Desk, sole: Option<DeviceId>, loud: bool, allowChallenge: bool)
    ensures var (desk', decision) := CorrelateWith(env, desk, sole, loud, allowChallenge);
            decision != Rebind ==>
              && SameAudio(desk.lane, desk'.lane)
              && desk'.registry.channels == desk.registry.channels
              && desk'.registry.nextChannel == desk.registry.nextChannel
  {
    ForgettingKeepsAudio(desk.lane);
    if sole.Some? {
      HoldKeepsAudio(env, Desk(ExpireClaim(env, desk.registry, sole.value), desk.lane), sole.value, loud);
    }
  }

  lemma ForgettingKeepsAudio(lane: Lane)
    ensures SameAudio(lane, ForgetChallenge(lane))
  {
  }

  lemma HoldKeepsAudio(env: Env, desk: Desk, candidate: DeviceId, loud: bool)
    ensures var (desk', decision) := Challenge(env, desk, candidate, loud);
            decision != Rebind ==> SameAudio(desk.lane, desk'.lane) && desk'.registry == desk.registry
  {
  }

  lemma ChallengeOk(env: Env, desk: Desk, candidate: DeviceId)
    requires RegistryOk(desk.registry) && LaneOk(env, desk.registry, desk.lane)
    requires Challenge(env, desk, candidate, true).1 == Rebind
    ensures var (desk', _) := Challenge(env, desk, candidate, true);
            DeskOk(env, desk.registry, desk') && desk'.lane.source == desk.lane.source
  {
    var lane := if desk.lane.challengeDeviceId != candidate then OpenChallenge(desk.lane, candidate) else desk.lane;
    var voted := lane.(vote := Some(NextIdentityVote(lane.vote, candidate, env.now)));
    SameAudioOk(env, desk.registry, desk.lane, voted);
    RebindOk(env, Desk(desk.registry, voted), candidate);
  }

  lemma RebindOk(env: Env, desk: Desk, candidate: DeviceId)
    requires RegistryOk(desk.registry) && LaneOk(env, desk.registry, desk.lane)
    ensures DeskOk(env, desk.registry, RebindRoute(env, desk, candidate))
    ensures RebindRoute(env, desk, candidate).lane.source == desk.lane.source
  {
    var lane := desk.lane;
    var record := RebindRecord(candidate, env.now, lane.history.observations, desk.registry.claimLog);
    var overriding := lane.(
      route := lane.route.(activityDeviceId := candidate,
                           overriddenProtocolRawDeviceId := lane.route.protocolRawDeviceId),
      history := lane.history.(rebinds := lane.history.rebinds + [record]));
    SameAudioOk(env, desk.registry, lane, overriding);
    AssignAndAnnounceOk(env, Desk(desk.registry, overriding), candidate);
    var moved := AssignDevice(env, Desk(desk.registry, overriding), candidate);
    SameAudioOk(env, moved.registry, Announce(env, moved.lane), Announce(env, moved.lane.(vote := None)));
  }

  lemma DeliverOk(env: Env, desk: Desk, e: EntryId, samples: seq<real>, peak: real, allowChallenge: bool)
    requires RegistryOk(desk.registry) && LaneOk(env, desk.registry, desk.lane)
    ensures DeskOk(env, desk.registry, Deliver(env, desk, e, samples, peak, allowChallenge))
    ensures Deliver(env, desk, e, samples, peak, allowChallenge).lane.source == desk.lane.source
  {
    CorrelateOk(env, desk, peak, allowChallenge);
    var (correlated, decision) := Correlate(env, desk, peak, allowChallenge);
    var reg, lane := correlated.registry, correlated.lane;
    match decision
    case Drop =>
    case Hold => SameAudioOk(env, reg, lane, HoldPcm(lane, e, samples));
    case Send =>
      PushOk(env, reg, lane, e, samples);
      PushKeeps(env, lane, e, samples);
    case Rebind =>
      FlushOk(env, reg, reg, lane, lane);
      PushOk(env, reg, FlushChallenge(env, lane), e, samples);
      PushKeeps(env, FlushChallenge(env, lane), e, samples);
  }

  // ---- Steps of the whole machine ----

  lemma PutOk(s: State, desk: Desk)
    requires StateOk(s) && DeskOk(s.env, s.registry, desk)
    ensures StateOk(Put(s, desk))
  {
    var s' := Put(s, desk);
    forall src | src in s'.lanes
      ensures s'.lanes[src].source == src && LaneOk(s'.env, s'.registry, s'.lanes[src])
    {
      if src != desk.lane.source {
        LaneSurvivesGrowth(s.env, s.registry, s'.registry, s.lanes[src]);
      }
    }
  }

  lemma RouteForSourceOk(s: State, src: Source)
    requires StateOk(s)
    ensures DeskOk(s.env, s.registry, RouteForSource(s, src))
    ensures RouteForSource(s, src).lane.source == src
  {
    if src in s.lanes {
      var desk := Desk(s.registry, s.lanes[src]);
      UpdateRouteOk(s.env, desk);
      var updated := UpdateRoute(s.env, desk);
      AnnounceOk(s.env, updated.registry, updated.lane);
    } else {
      CreateRouteOk(s.env, s.registry, src);
    }
  }

  lemma WithRouteOk(s: State, src: Source)
    requires StateOk(s)
    ensures Grows(s.registry, WithRoute(s, src).registry)
    ensures StateOk(WithRoute(s, src))
    ensures WithRoute(s, src).env == s.env && src in WithRoute(s, src).lanes
    ensures WithRoute(s, src).lanes[src] == RouteForSource(s, src).lane
    ensures WithRoute(s, src).registry == RouteForSource(s, src).registry
  {
    RouteForSourceOk(s, src);
    PutOk(s.(order := if src in s.lanes then s.order else s.order + [src]), RouteForSource(s, src));
  }

  lemma {:induction false} UpdateRoutesOk(s: State, order: seq<Source>)
    requires StateOk(s)
    ensures Grows(s.registry, UpdateRoutes(s, order).registry)
    ensures StateOk(UpdateRoutes(s, order))
    decreases |order|
  {
    if order != [] {
      if order[0] in s.lanes {
        var desk := Desk(s.registry, s.lanes[order[0]]);
        UpdateRouteOk(s.env, desk);
        PutOk(s, UpdateRoute(s.env, desk));
        UpdateRoutesOk(Put(s, UpdateRoute(s.env, desk)), order[1..]);
      } else {
        UpdateRoutesOk(s, order[1..]);
      }
    }
  }

  /** A change of the surroundings that leaves capture on or off and revives no entry. */
  lemma EnvironmentOk(s: State, env: Env)
    requires StateOk(s) && env.running == s.env.running
    requires forall e | e in s.env.entries :: e in env.entries && (Live(env, e) ==> Live(s.env, e))
    ensures StateOk(s.(env := env))
  {
    forall src | src in s.lanes ensures LaneOk(env, s.registry, s.lanes[src]) {
      assert LaneOk(s.env, s.registry, s.lanes[src]);
    }
  }

  /** The lane lost audio and gained none. */
  predicate Emptier(lane: Lane, lane': Lane) {
    && SameAudio(lane.(pendingAudio := [], buffers := map[]), lane'.(pendingAudio := [], buffers := map[]))
    && (lane'.pendingAudio == lane.pendingAudio || lane'.pendingAudio == [])
    && (forall e | e in lane'.buffers :: e in lane.buffers && lane'.buffers[e] == lane.buffers[e])
  }

  lemma EmptierOk(env: Env, reg: Registry, lane: Lane, lane': Lane)
    requires LaneOk(env, reg, lane) && Emptier(lane, lane')
    ensures LaneOk(env, reg, lane')
  {
    forall b | b in lane'.pendingAudio ensures Unowned(lane', b) {
      assert Unowned(lane, b);
    }
  }

  lemma OnLanesOk(s: State, s': State)
    requires StateOk(s)
    requires s'.env == s.env && s'.lanes.Keys == s.lanes.Keys
    requires s'.registry.channels == s.registry.channels && s'.registry.nextChannel == s.registry.nextChannel
    requires forall src | src in s.lanes :: Emptier(s.lanes[src], s'.lanes[src])
    ensures StateOk(s')
  {
    forall src | src in s'.lanes ensures LaneOk(s'.env, s'.registry, s'.lanes[src]) {
      LaneSurvivesGrowth(s.env, s.registry, s'.registry, s.lanes[src]);
      EmptierOk(s.env, s'.registry, s.lanes[src], s'.lanes[src]);
    }
  }

  /** No route changed its owner while blocks from before the change still waited. */
  predicate PendingCurrent(s: State) {
    forall src | src in s.lanes :: PendingOfGeneration(s.lanes[src], s.lanes[src].route.generation)
  }

  /** Starting is safe when no block waits from before an owner change; cleaning up ensures that. */
  predicate Guarded(s: State, step: Step) {
    step.Start? ==> PendingCurrent(s)
  }

  lemma CaptureOnOk(s: State)
    requires StateOk(s) && PendingCurrent(s)
    ensures StateOk(s.(env := s.env.(running := true)))
  {
    forall src | src in s.lanes ensures LaneOk(s.env.(running := true), s.registry, s.lanes[src]) {
      assert LaneOk(s.env, s.registry, s.lanes[src]);
    }
  }

  lemma ForgettingEmpties(lane: Lane, dropped: set<EntryId>)
    ensures Emptier(lane, WithoutBuffers(lane, dropped))
    ensures Emptier(lane, WithoutBuffers(ForgetEvidence(lane), dropped))
    ensures Emptier(lane, WithoutBuffers(ForgetEvidence(DropHeldAudio(lane)), dropped))
  {
  }

  lemma StartEmpties(s: State)
    ensures forall src | src in s.lanes :: Emptier(s.lanes[src], StartCapture(s).lanes[src])
  {
    forall src | src in s.lanes ensures Emptier(s.lanes[src], StartCapture(s).lanes[src]) {
      ForgettingEmpties(s.lanes[src], LiveTaps(s.env));
    }
  }

  lemma CleanupEmpties(s: State)
    ensures forall src | src in s.lanes :: Emptier(s.lanes[src], CleanupCapture(s).lanes[src])
  {
    forall src | src in s.lanes ensures Emptier(s.lanes[src], CleanupCapture(s).lanes[src]) {
      ForgettingEmpties(s.lanes[src], LiveEntries(s.env));
    }
  }

  lemma StartOk(s: State)
    requires StateOk(s) && PendingCurrent(s)
    ensures StateOk(StartCapture(s))
  {
    CaptureOnOk(s);
    StartEmpties(s);
    OnLanesOk(s.(env := s.env.(running := true)), StartCapture(s));
  }

  lemma CleanupOk(s: State)
    requires StateOk(s)
    ensures StateOk(CleanupCapture(s))
  {
    CleanupEmpties(s);
    OnLanesOk(s, CleanupCapture(s));
  }

  lemma AnnounceAllOk(s: State)
    requires StateOk(s)
    ensures StateOk(Apply(s, AnnounceAll))
  {
    var s' := Apply(s, AnnounceAll);
    forall src | src in s.lanes ensures s'.lanes[src] == s.lanes[src] {
      AnnounceOk(s.env, s.registry, s.lanes[src]);
    }
  }

  lemma ReceiveFrameOk(s: State, receiver: Receiver, src: Source, audible: bool, candidate: bool, native: Option<EntryId>)
    requires StateOk(s) && src in s.lanes
    ensures StateOk(Put(s, Desk(s.registry, ReceiveFrame(s.env, s.lanes[src], receiver, audible, candidate, native))))
  {
    var lane' := ReceiveFrame(s.env, s.lanes[src], receiver, audible, candidate, native);
    EmptierOk(s.env, s.registry, s.lanes[src], lane');
    PutOk(s, Desk(s.registry, lane'));
  }

  lemma DeliverStepOk(s: State, src: Source, e: EntryId, samples: seq<real>, peak: real, allowChallenge: bool)
    requires StateOk(s) && src in s.lanes
    ensures Grows(s.registry, Deliver(s.env, Desk(s.registry, s.lanes[src]), e, samples, peak, allowChallenge).registry)
    ensures StateOk(Put(s, Deliver(s.env, Desk(s.registry, s.lanes[src]), e, samples, peak, allowChallenge)))
  {
    DeliverOk(s.env, Desk(s.registry, s.lanes[src]), e, samples, peak, allowChallenge);
    PutOk(s, Deliver(s.env, Desk(s.registry, s.lanes[src]), e, samples, peak, allowChallenge));
  }

  lemma OtherChannelOk(s: State)
    requires StateOk(s)
    ensures StateOk(Apply(s, OtherChannel))
  {
    var reg' := s.registry.(nextChannel := s.registry.nextChannel + 1);
    forall src | src in s.lanes ensures LaneOk(s.env, reg', s.lanes[src]) {
      LaneSurvivesGrowth(s.env, s.registry, reg', s.lanes[src]);
    }
  }

  lemma ReleaseOk(s: State, id: EntryId)
    requires StateOk(s) && Live(s.env, id)
    ensures StateOk(ReleaseEntry(s, id))
  {
    var entry := s.env.entries[id];
    var off := s.(env := s.env.(entries := s.env.entries[id := entry.(released := true)]));
    EnvironmentOk(s, off.env);
    if entry.path == A.Encoded {
      OnLanesOk(off, ReleaseEntry(s, id));
    }
  }

  lemma ProtocolStepOk(s: State, step: Step)
    requires StateOk(s) && Enabled(s, step) && (step.UsersChanged? || step.OutputsChanged?)
    ensures Grows(s.registry, Apply(s, step).registry)
    ensures StateOk(Apply(s, step))
  {
    var env := if step.UsersChanged? then s.env.(users := step.known) else s.env.(outputs := step.current);
    EnvironmentOk(s, env);
    UpdateRoutesOk(s.(env := env), s.order);
  }

  lemma NativeStepOk(s: State, e: EntryId, src: Source, samples: seq<real>, peak: real, isSelf: bool)
    requires StateOk(s)
    ensures Grows(s.registry, ReceiveNative(s, e, src, samples, peak, isSelf).registry)
    ensures StateOk(ReceiveNative(s, e, src, samples, peak, isSelf))
  {
    if s.env.running && Routable(src) {
      WithRouteOk(s, src);
      DeliverStepOk(WithRoute(s, src), src, e, samples, peak, true);
    }
  }

  lemma FrameStepOk(s: State, e: EntryId, src: Source, level: Option<real>, candidate: bool,
                    native: Option<EntryId>, isSelf: bool)
    requires StateOk(s) && e in s.env.entries
    ensures Grows(s.registry, ReceiveEncoded(s, e, src, level, candidate, native, isSelf).registry)
    ensures StateOk(ReceiveEncoded(s, e, src, level, candidate, native, isSelf))
  {
    if s.env.running && Routable(src) {
      WithRouteOk(s, src);
      ReceiveFrameOk(WithRoute(s, src), s.env.entries[e].receiver, src,
        level.Some? && level.value >= A.AUDIBLE_LEVEL, candidate, native);
    }
  }

  /** Every step keeps the machine well-formed. */
  lemma StepOk(s: State, step: Step)
    requires StateOk(s) && Guarded(s, step)
    ensures Grows(s.registry, Apply(s, step).registry)
    ensures StateOk(Apply(s, step))
  {
    if Enabled(s, step) {
      match step
      case UsersChanged(_) => ProtocolStepOk(s, step);
      case OutputsChanged(_) => ProtocolStepOk(s, step);
      case NativePcm(id, source, samples, peak, isSelf) => NativeStepOk(s, id, source, samples, peak, isSelf);
      case EncodedFrame(id, source, level, candidate, native, isSelf) =>
        FrameStepOk(s, id, source, level, candidate, native, isSelf);
      case EncodedPcm(id, source, samples, peak, allowChallenge) =>
        DeliverStepOk(s, source, id, samples, peak, allowChallenge);
      case _ => OtherStepOk(s, step);
    }
  }

  lemma OtherStepOk(s: State, step: Step)
    requires StateOk(s) && Guarded(s, step) && Enabled(s, step)
    requires !step.UsersChanged? && !step.OutputsChanged? && !step.NativePcm? && !step.EncodedFrame? && !step.EncodedPcm?
    ensures Grows(s.registry, Apply(s, step).registry)
    ensures StateOk(Apply(s, step))
  {
    match step
    case OtherChannel => OtherChannelOk(s);
    case Attach(id, attached) => AttachOk(s, id, attached);
    case Release(id) => ReleaseOk(s, id);
    case ResetDecoder(id) => OnLanesOk(s, Apply(s, step));
    case Start => StartOk(s);
    case AnnounceAll => AnnounceAllOk(s);
    case Halt => HaltOk(s);
    case Cleanup => CleanupOk(s);
    case _ => QuietStepOk(s, step);
  }

  lemma QuietStepOk(s: State, step: Step)
    requires StateOk(s) && Enabled(s, step)
    requires step.Advance? || step.SetMicOpen? || step.SetActive? || step.ReplaceReceiver?
    ensures StateOk(Apply(s, step))
  {
    EnvironmentOk(s, Apply(s, step).env);
  }

  lemma AttachOk(s: State, id: EntryId, attached: Entry)
    requires StateOk(s) && id !in s.env.entries
    ensures StateOk(s.(env := s.env.(entries := s.env.entries[id := attached])))
  {
    EnvironmentOk(s, s.env.(entries := s.env.entries[id := attached]));
  }

  lemma HaltOk(s: State)
    requires StateOk(s)
    ensures StateOk(s.(env := s.env.(running := false)))
  {
    forall src | src in s.lanes ensures LaneOk(s.env.(running := false), s.registry, s.lanes[src]) {
      assert LaneOk(s.env, s.registry, s.lanes[src]);
    }
  }

  // ---- Main results ----

  /** Every `Start` of the run finds its guard. */
  predicate GuardedRun(s: State, steps: seq<Step>)
    decreases |steps|
  {
    steps == [] ||
    (var front := steps[..|steps| - 1];
     GuardedRun(s, front) && Guarded(Run(s, front), steps[|steps| - 1]))
  }

  lemma {:induction false} RunOk(s: State, steps: seq<Step>)
    requires StateOk(s) && GuardedRun(s, steps)
    ensures StateOk(Run(s, steps))
    decreases |steps|
  {
    if steps != [] {
      RunOk(s, steps[..|steps| - 1]);
      StepOk(Run(s, steps[..|steps| - 1]), steps[|steps| - 1]);
    }
  }

  /** Over every guarded run, each published block holds one owner's audio and is on that owner's channel. */
  lemma GuardedRunsAttribute(steps: seq<Step>)
    requires GuardedRun(INITIAL, steps)
    ensures Attributed(Run(INITIAL, steps))
  {
    RunOk(INITIAL, steps);
  }

  // ---- When the guard is missing ----

  /** Releasing waiting blocks is right exactly when the owner is the first one after they were framed. */
  lemma AnnounceExactly(env: Env, reg: Registry, lane: Lane)
    requires RegistryOk(reg) && CoreOk(env, reg, lane) && PendingUnowned(lane)
    requires env.running && lane.route.deviceId != NO_DEVICE
    ensures PostedOk(reg, Announce(env, lane)) <==>
            forall b: seq<Sample> | b in lane.pendingAudio ::
              |b| == BLOCK && OwnerOf(lane.history.owners, b[0].generation) == lane.route.deviceId
  {
    var lane' := Announce(env, lane);
    forall b: seq<Sample> | b in lane.pendingAudio
      ensures |b| == BLOCK
      ensures Placed(reg.channels, lane.history.owners, Audio(lane.route.channel, b)) <==>
              OwnerOf(lane.history.owners, b[0].generation) == lane.route.deviceId
      ensures Audio(lane.route.channel, b) in lane'.posted
    {
      assert Unowned(lane, b);
      ReleasedBlocks(env, lane, Audio(lane.route.channel, b));
    }
    forall a | a in lane'.posted && a !in lane.posted
      ensures a.channel == lane.route.channel && a.block in lane.pendingAudio
    {
      ReleasedBlocks(env, lane, a);
    }
  }

  predicate NothingWaits(s: State) {
    !s.env.running && forall src | src in s.lanes :: s.lanes[src].pendingAudio == []
  }

  lemma {:induction false} PushChunksIdle(env: Env, lane: Lane, chunks: seq<Chunk>)
    requires !env.running
    ensures PushChunks(env, lane, chunks) == lane
    decreases |chunks|
  {
    if chunks != [] {
      PushChunksIdle(env, lane, chunks[1..]);
    }
  }

  lemma UpdateRouteIdle(env: Env, desk: Desk)
    requires !env.running
    ensures UpdateRoute(env, desk).lane.pendingAudio == desk.lane.pendingAudio
  {
    var read := ReadProtocol(env, desk.lane);
    var moved := AssignDevice(env, Desk(desk.registry, Resolved(desk.lane, read)), Resolve(read).deviceId);
    PushChunksIdle(env, Replayed(moved.lane.(vote := None)), moved.lane.challengeAudio);
  }

  lemma {:induction false} UpdateRoutesIdle(s: State, order: seq<Source>)
    requires NothingWaits(s)
    ensures NothingWaits(UpdateRoutes(s, order))
    decreases |order|
  {
    if order != [] {
      if order[0] in s.lanes {
        var desk := Desk(s.registry, s.lanes[order[0]]);
        UpdateRouteIdle(s.env, desk);
        UpdateRoutesIdle(Put(s, UpdateRoute(s.env, desk)), order[1..]);
      } else {
        UpdateRoutesIdle(s, order[1..]);
      }
    }
  }

  lemma IdleStep(s: State, step: Step)
    requires NothingWaits(s) && !step.Start?
    ensures NothingWaits(Apply(s, step))
  {
    match step
    case UsersChanged(known) => UpdateRoutesIdle(s.(env := s.env.(users := known)), s.order);
    case OutputsChanged(current) => UpdateRoutesIdle(s.(env := s.env.(outputs := current)), s.order);
    case _ =>
  }

  /** Cleaning up makes the next start safe, whatever the protocol does in between. */
  lemma {:induction false} CleanupGuardsTheNextStart(s: State, steps: seq<Step>)
    requires !s.env.running && forall step | step in steps :: !step.Start?
    ensures Guarded(Run(Apply(s, Cleanup), steps), Start)
    ensures NothingWaits(Run(Apply(s, Cleanup), steps))
    decreases |steps|
  {
    if steps != [] {
      CleanupGuardsTheNextStart(s, steps[..|steps| - 1]);
      IdleStep(Run(Apply(s, Cleanup), steps[..|steps| - 1]), steps[|steps| - 1]);
    }
  }
}
