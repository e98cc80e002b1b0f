/**
 Exactly when a start is safe. A block that waits from before an owner change is enough:
 if the protocol then names yet another participant, that one receives it.
 */
module MeetStartGuard {
  import opened Wrappers
  import opened CapturePolicy
  import opened MeetState
  import opened MeetFacts
  import opened MeetAttribution
  import opened MeetChannels
  import opened PcmFraming
  import R = MeetRuns

  // ---- Every route is listed in the order of creation ----

  lemma PutLists(s: State, desk: Desk)
    requires Listed(s) && desk.lane.source in s.order && Routable(desk.lane.source)
    ensures Listed(Put(s, desk))
  {
  }

  lemma {:induction false} UpdateRoutesLists(s: State, order: seq<Source>)
    requires Listed(s)
    ensures Listed(UpdateRoutes(s, order))
    decreases |order|
  {
    if order != [] {
      if order[0] in s.lanes {
        UpdateRouteResult(s.env, Desk(s.registry, s.lanes[order[0]]));
        UpdateRoutesLists(Put(s, UpdateRoute(s.env, Desk(s.registry, s.lanes[order[0]]))), order[1..]);
      } else {
        UpdateRoutesLists(s, order[1..]);
      }
    }
  }

  lemma WithRouteLists(s: State, src: Source)
    requires Listed(s) && Routable(src)
    ensures Listed(WithRoute(s, src)) && src in WithRoute(s, src).order && RouteForSource(s, src).lane.source == src
  {
    if src in s.lanes {
      UpdateRouteResult(s.env, Desk(s.registry, s.lanes[src]));
    }
  }

  lemma NativeLists(s: State, e: EntryId, src: Source, samples: seq<real>, peak: real, isSelf: bool)
    requires Listed(s)
    ensures Listed(ReceiveNative(s, e, src, samples, peak, isSelf))
  {
    if Routable(src) {
      WithRouteLists(s, src);
      R.DeliverKeepsSource(s.env, RouteForSource(s, src), e, samples, peak, true);
      PutLists(WithRoute(s, src), Deliver(s.env, RouteForSource(s, src), e, samples, peak, true));
    }
  }

  lemma FrameLists(s: State, e: EntryId, src: Source, level: Option<real>, candidate: bool,
                   native: Option<EntryId>, isSelf: bool)
    requires Listed(s) && e in s.env.entries
    ensures Listed(ReceiveEncoded(s, e, src, level, candidate, native, isSelf))
  {
    if Routable(src) {
      WithRouteLists(s, src);
    }
  }

  lemma DeliveryLists(s: State, step: Step)
    requires Listed(s) && Enabled(s, step) && (step.NativePcm? || step.EncodedFrame? || step.EncodedPcm?)
    ensures Listed(Apply(s, step))
  {
    if step.NativePcm? {
      NativeLists(s, step.id, step.source, step.samples, step.peak, step.isSelf);
    } else if step.EncodedFrame? {
      FrameLists(s, step.id, step.source, step.level, step.candidate, step.native, step.isSelf);
    } else {
      R.DeliverKeepsSource(s.env, Desk(s.registry, s.lanes[step.source]), step.id, step.samples, step.peak, step.allowChallenge);
    }
  }

  lemma StepLists(s: State, step: Step)
    requires Listed(s)
    ensures Listed(Apply(s, step))
  {
    if Enabled(s, step) {
      if step.NativePcm? || step.EncodedFrame? || step.EncodedPcm? {
        DeliveryLists(s, step);
      } else if step.UsersChanged? {
        UpdateRoutesLists(s.(env := s.env.(users := step.known)), s.order);
      } else if step.OutputsChanged? {
        UpdateRoutesLists(s.(env := s.env.(outputs := step.current)), s.order);
      }
    }
  }

  lemma {:induction false} RunLists(steps: seq<Step>)
    ensures Listed(Run(INITIAL, steps))
    decreases |steps|
  {
    if steps != [] {
      RunLists(steps[..|steps| - 1]);
      StepLists(Run(INITIAL, steps[..|steps| - 1]), steps[|steps| - 1]);
    }
  }

  // ---- Audio on a later owner's channel ----

  /** `a` went out on the channel of `d`, which is not the owner its samples belong to. */
  predicate Misplaced(reg: Registry, lane: Lane, a: Audio, d: DeviceId) {
    && a in lane.posted && |a.block| == BLOCK
    && d in reg.channels && reg.channels[d] == a.channel
    && a.block[0].generation + 1 < |lane.history.owners|
    && OwnerOf(lane.history.owners, a.block[0].generation) != d
  }

  lemma MisplacedIsWrong(reg: Registry, lane: Lane, a: Audio, d: DeviceId)
    requires RegistryOk(reg) && Misplaced(reg, lane, a, d)
    ensures !Placed(reg.channels, lane.history.owners, a)
  {
  }

  lemma {:induction false} BlocksPost(env: Env, lane: Lane, entry: Entry, e: EntryId, blocks: seq<seq<Sample>>)
    ensures lane.posted <= OnBlocks(env, lane, entry, e, blocks).posted
    decreases |blocks|
  {
    if blocks != [] {
      BlocksPost(env, OnBlock(env, lane, entry, e, blocks[0]), entry, e, blocks[1..]);
    }
  }

  lemma {:induction false} ChunksPost(env: Env, lane: Lane, chunks: seq<Chunk>)
    ensures lane.posted <= PushChunks(env, lane, chunks).posted
    decreases |chunks|
  {
    if chunks != [] {
      var c := chunks[0];
      if env.running && c.entry in env.entries {
        BlocksPost(env, lane.(buffers := lane.buffers[c.entry := BufferOf(lane, c.entry)]), env.entries[c.entry], c.entry,
          Blocks(BufferOf(lane, c.entry) + Stamp(c.samples, lane.route.generation)));
      }
      ChunksPost(env, PushPcm(env, lane, c.entry, c.samples), chunks[1..]);
    }
  }

  lemma FlushPosts(env: Env, lane: Lane)
    ensures lane.posted <= FlushChallenge(env, lane).posted && FlushChallenge(env, lane).route == lane.route
  {
    FlushKeeps(env, lane);
    ChunksPost(env, Replayed(lane), lane.challengeAudio);
  }

  /** An update takes back neither channels nor audio nor owners. */
  lemma UpdateGrows(env: Env, desk: Desk)
    requires DeskKept(desk)
    ensures var desk' := UpdateRoute(env, desk);
            KeepsChannels(desk, desk') && desk.lane.posted <= desk'.lane.posted
  {
    var read := ReadProtocol(env, desk.lane);
    var before := Desk(desk.registry, Resolved(desk.lane, read));
    var moved := AssignDevice(env, before, Resolve(read).deviceId);
    AssignChannels(env, before, Resolve(read).deviceId);
    UpdateChannels(env, desk);
    FlushPosts(env, Announce(env, moved.lane).(vote := None));
  }

  lemma {:induction false} UpdateRoutesKeepMisplaced(s: State, order: seq<Source>, src: Source, a: Audio, d: DeviceId)
    requires ChannelsOk(s) && src in s.lanes && Misplaced(s.registry, s.lanes[src], a, d)
    ensures var s' := UpdateRoutes(s, order);
            ChannelsOk(s') && src in s'.lanes && Misplaced(s'.registry, s'.lanes[src], a, d)
    decreases |order|
  {
    if order != [] {
      if order[0] in s.lanes {
        OneUpdate(s, order[0], src);
        var s' := Put(s, UpdateRoute(s.env, Desk(s.registry, s.lanes[order[0]])));
        OwnerStays(s.lanes[src].history.owners, s'.lanes[src].history.owners, a.block[0].generation);
        UpdateRoutesKeepMisplaced(s', order[1..], src, a, d);
      } else {
        UpdateRoutesKeepMisplaced(s, order[1..], src, a, d);
      }
    }
  }

  lemma OwnerStays(owners: seq<DeviceId>, owners': seq<DeviceId>, g: nat)
    requires owners <= owners' && g + 1 < |owners|
    ensures OwnerOf(owners', g) == OwnerOf(owners, g)
  {
  }

  lemma OneUpdate(s: State, changed: Source, src: Source)
    requires ChannelsOk(s) && changed in s.lanes && src in s.lanes
    ensures var s' := Put(s, UpdateRoute(s.env, Desk(s.registry, s.lanes[changed])));
            && ChannelsOk(s') && src in s'.lanes && Grows(s.registry, s'.registry)
            && s.lanes[src].posted <= s'.lanes[src].posted
            && s.lanes[src].history.owners <= s'.lanes[src].history.owners
            && (changed != src ==> s'.lanes[src] == s.lanes[src])
  {
    UpdateGrows(s.env, Desk(s.registry, s.lanes[changed]));
    UpdateRouteResult(s.env, Desk(s.registry, s.lanes[changed]));
  }

  // ---- The step that gives a waiting block away ----

  /** The block waits, framed before the last owner change. */
  predicate WaitsFromBefore(lane: Lane, b: seq<Sample>) {
    && b in lane.pendingAudio && |b| == BLOCK
    && b[0].generation + 1 < |lane.history.owners|
    && lane.history.owners[|lane.history.owners| - 1] == lane.route.deviceId
  }

  /** A device that never owned the lane nor is involved in its present identity. */
  predicate Stranger(env: Env, lane: Lane, d: DeviceId) {
    && d != NO_DEVICE && d !in env.users && d !in lane.history.owners
    && d != lane.route.overriddenProtocolRawDeviceId && d != lane.challengeDeviceId
  }

  lemma UpdateMisplaces(env: Env, desk: Desk, b: seq<Sample>, d: DeviceId)
    requires env.running && DeskKept(desk)
    requires WaitsFromBefore(desk.lane, b) && Stranger(env, desk.lane, d)
    requires desk.lane.source in env.outputs && env.outputs[desk.lane.source] == d
    ensures var desk' := UpdateRoute(env, desk);
            Misplaced(desk'.registry, desk'.lane, Audio(desk'.lane.route.channel, b), d)
  {
    var read := ReadProtocol(env, desk.lane);
    assert Resolve(read).deviceId == d;
    var before := Resolved(desk.lane, read);
    AssignChannels(env, Desk(desk.registry, before), d);
    var moved := AssignDevice(env, Desk(desk.registry, before), d);
    ReleasedBlocks(env, moved.lane, Audio(moved.lane.route.channel, b));
    OwnerStays(desk.lane.history.owners, moved.lane.history.owners, b[0].generation);
  }

  lemma {:induction false} UpdateRoutesMisplace(s: State, order: seq<Source>, src: Source, b: seq<Sample>, d: DeviceId)
    requires ChannelsOk(s) && s.env.running && src in s.lanes && src in order
    requires WaitsFromBefore(s.lanes[src], b) && Stranger(s.env, s.lanes[src], d)
    requires src in s.env.outputs && s.env.outputs[src] == d
    ensures var s' := UpdateRoutes(s, order);
            ChannelsOk(s') && src in s'.lanes && exists a :: Misplaced(s'.registry, s'.lanes[src], a, d)
    decreases |order|
  {
    if order[0] in s.lanes {
      var s' := Put(s, UpdateRoute(s.env, Desk(s.registry, s.lanes[order[0]])));
      OneUpdate(s, order[0], src);
      if order[0] == src {
        UpdateMisplaces(s.env, Desk(s.registry, s.lanes[src]), b, d);
        UpdateRoutesKeepMisplaced(s', order[1..], src, Audio(s'.lanes[src].route.channel, b), d);
      } else {
        UpdateRoutesMisplace(s', order[1..], src, b, d);
      }
    } else {
      UpdateRoutesMisplace(s, order[1..], src, b, d);
    }
  }

  // ---- The guard is exact ----

  /** Whatever happens from here on, and however often capture is safely restarted. */
  ghost predicate AttributesForEver(s: State) {
    forall later: seq<Step> | GuardedRun(s, later) :: Attributed(Run(s, later))
  }

  /** What waited before a start still waits after it, on the same route. */
  predicate Waits(lane: Lane, lane': Lane) {
    && lane'.source == lane.source && lane'.pendingAudio == lane.pendingAudio && lane'.route == lane.route
    && lane'.history == lane.history && lane'.challengeDeviceId == lane.challengeDeviceId
  }

  lemma StartWaits(s: State)
    requires !s.env.running
    ensures var s1 := Apply(s, Start);
            && s1.env.running && s1.order == s.order && s1.registry == WipeClaims(s.registry)
            && s1.lanes.Keys == s.lanes.Keys && forall x | x in s.lanes :: Waits(s.lanes[x], s1.lanes[x])
  {
  }

  lemma StartKeeps(s: State)
    requires StateOk(s) && Listed(s) && !s.env.running
    ensures var s1 := Apply(s, Start);
            && ChannelsOk(s1) && Listed(s1) && s1.env.running && s1.lanes.Keys == s.lanes.Keys
            && forall x | x in s.lanes :: Waits(s.lanes[x], s1.lanes[x])
  {
    var s1 := Apply(s, Start);
    StartWaits(s);
    forall x | x in s1.lanes ensures DeskKept(Desk(s1.registry, s1.lanes[x])) {
      WaitingIsKept(s.env, s.registry, s.lanes[x], s1.registry, s1.lanes[x]);
    }
  }

  lemma WaitingIsKept(env: Env, reg: Registry, lane: Lane, reg': Registry, lane': Lane)
    requires RegistryOk(reg) && LaneOk(env, reg, lane) && Waits(lane, lane') && reg' == WipeClaims(reg)
    ensures DeskKept(Desk(reg', lane'))
  {
  }

  lemma WaitingIsFromBefore(s: State, src: Source, b: seq<Sample>)
    requires StateOk(s) && src in s.lanes
    requires b in s.lanes[src].pendingAudio && !(|b| == BLOCK && b[0].generation == s.lanes[src].route.generation)
    ensures WaitsFromBefore(s.lanes[src], b)
  {
    var lane := s.lanes[src];
    assert LaneOk(s.env, s.registry, lane);
    assert Unowned(lane, b);
    assert OwnersOk(s.registry, lane);
  }

  lemma GivenAway(s: State, src: Source, b: seq<Sample>, d: DeviceId)
    requires ChannelsOk(s) && Listed(s) && s.env.running && src in s.lanes
    requires WaitsFromBefore(s.lanes[src], b) && Stranger(s.env, s.lanes[src], d)
    ensures !Attributed(Apply(s, OutputsChanged(map[src := d])))
  {
    GivenAwayBy(s.(env := s.env.(outputs := map[src := d])), src, b, d);
  }

  lemma GivenAwayBy(s: State, src: Source, b: seq<Sample>, d: DeviceId)
    requires ChannelsOk(s) && s.env.running && src in s.lanes && src in s.order
    requires WaitsFromBefore(s.lanes[src], b) && Stranger(s.env, s.lanes[src], d)
    requires src in s.env.outputs && s.env.outputs[src] == d
    ensures !Attributed(UpdateRoutes(s, s.order))
  {
    UpdateRoutesMisplace(s, s.order, src, b, d);
    MisplacedSomewhere(UpdateRoutes(s, s.order), src, d);
  }

  lemma MisplacedSomewhere(s: State, src: Source, d: DeviceId)
    requires RegistryOk(s.registry) && src in s.lanes && exists a :: Misplaced(s.registry, s.lanes[src], a, d)
    ensures !Attributed(s)
  {
    var a :| Misplaced(s.registry, s.lanes[src], a, d);
    MisplacedIsWrong(s.registry, s.lanes[src], a, d);
  }

  lemma UnguardedStartFails(s: State, src: Source, b: seq<Sample>, d: DeviceId)
    requires StateOk(s) && Listed(s) && src in s.lanes && !s.env.running
    requires b in s.lanes[src].pendingAudio && !(|b| == BLOCK && b[0].generation == s.lanes[src].route.generation)
    requires Stranger(s.env, s.lanes[src], d)
    ensures !AttributesForEver(Apply(s, Start))
  {
    var s1, change := Apply(s, Start), OutputsChanged(map[src := d]);
    StartKeeps(s);
    WaitingIsFromBefore(s, src, b);
    GivenAway(s1, src, b, d);
    OneStep(s1, change);
  }

  lemma OneStep(s: State, step: Step)
    requires !step.Start?
    ensures Run(s, [step]) == Apply(s, step) && GuardedRun(s, [step])
  {
    assert [step][..0] == [];
  }

  lemma GuardedStartHolds(s: State)
    requires StateOk(s) && PendingCurrent(s) && !s.env.running
    ensures AttributesForEver(Apply(s, Start))
  {
    StartOk(s);
    var s1 := Apply(s, Start);
    forall later: seq<Step> | GuardedRun(s1, later) ensures Attributed(Run(s1, later)) {
      RunOk(s1, later);
      OkIsAttributed(Run(s1, later));
    }
  }

  lemma OkIsAttributed(s: State)
    requires StateOk(s)
    ensures Attributed(s)
  {
  }

  predicate NotInUse(s: State, d: DeviceId) {
    forall src | src in s.lanes :: Stranger(s.env, s.lanes[src], d)
  }

  /**
   A start in any state a safe run reaches leaves all later audio attributed exactly if no
   block waits from before an owner change. `d` is any device name not in use.
   */
  lemma StartIsSafeExactly(steps: seq<Step>, d: DeviceId)
    requires GuardedRun(INITIAL, steps) && !Run(INITIAL, steps).env.running && NotInUse(Run(INITIAL, steps), d)
    ensures PendingCurrent(Run(INITIAL, steps)) <==> AttributesForEver(Apply(Run(INITIAL, steps), Start))
  {
    var s := Run(INITIAL, steps);
    RunOk(INITIAL, steps);
    RunLists(steps);
    if PendingCurrent(s) {
      GuardedStartHolds(s);
    } else {
      var src :| src in s.lanes && !PendingOfGeneration(s.lanes[src], s.lanes[src].route.generation);
      var b: seq<Sample> :| b in s.lanes[src].pendingAudio && !(|b| == BLOCK && b[0].generation == s.lanes[src].route.generation);
      UnguardedStartFails(s, src, b, d);
    }
  }

  // ---- What makes a start unsafe ----

  lemma {:induction false} NothingIsPushed(env: Env, lane: Lane, chunks: seq<Chunk>)
    requires !env.running
    ensures PushChunks(env, lane, chunks) == lane
    decreases |chunks|
  {
    if chunks != [] {
      NothingIsPushed(env, lane, chunks[1..]);
    }
  }

  /** While capture is off, updates move the owner and leave what waits behind. */
  lemma {:induction false} UpdatesKeepWaiting(s: State, order: seq<Source>, src: Source)
    requires !s.env.running && ChannelsOk(s) && src in s.lanes
    ensures var s' := UpdateRoutes(s, order);
            src in s'.lanes && s'.lanes[src].pendingAudio == s.lanes[src].pendingAudio
    decreases |order|
  {
    if order != [] {
      if order[0] in s.lanes {
        OneUpdate(s, order[0], src);
        UpdateKeepsWaiting(s.env, Desk(s.registry, s.lanes[order[0]]));
        UpdatesKeepWaiting(Put(s, UpdateRoute(s.env, Desk(s.registry, s.lanes[order[0]]))), order[1..], src);
      } else {
        UpdatesKeepWaiting(s, order[1..], src);
      }
    }
  }

  lemma UpdateKeepsWaiting(env: Env, desk: Desk)
    requires !env.running
    ensures UpdateRoute(env, desk).lane.pendingAudio == desk.lane.pendingAudio
  {
    var read := ReadProtocol(env, desk.lane);
    var moved := AssignDevice(env, Desk(desk.registry, Resolved(desk.lane, read)), Resolve(read).deviceId).lane;
    NothingIsPushed(env, Replayed(moved.(vote := None)), moved.challengeAudio);
  }

  /** The protocol gave the source another owner, and some of its audio waits. */
  predicate Strands(s: State, s': State, src: Source) {
    && src in s.lanes && src in s'.lanes && s.lanes[src].pendingAudio != []
    && s'.lanes[src].route.deviceId != s.lanes[src].route.deviceId
  }

  lemma StrandedIsOld(s: State, s': State, src: Source)
    requires StateOk(s) && ChannelsOk(s) && ChannelsOk(s') && Continues(s, s') && Strands(s, s', src)
    requires s'.lanes[src].pendingAudio == s.lanes[src].pendingAudio
    ensures !PendingCurrent(s')
  {
    var lane, lane' := s.lanes[src], s'.lanes[src];
    assert LaneOk(s.env, s.registry, lane) && OwnersMatch(lane) && OwnersMatch(lane');
    assert lane.pendingAudio[0] in lane'.pendingAudio;
    assert Unowned(lane, lane.pendingAudio[0]);
    assert !PendingOfGeneration(lane', lane'.route.generation);
  }

  lemma ChangeStrands(s: State, current: map<Source, DeviceId>, src: Source)
    requires StateOk(s) && ChannelsOk(s) && !s.env.running && Strands(s, Apply(s, OutputsChanged(current)), src)
    ensures !PendingCurrent(Apply(s, OutputsChanged(current))) && !Apply(s, OutputsChanged(current)).env.running
  {
    ChangeKeepsWaiting(s, current, src);
    StrandedIsOld(s, Apply(s, OutputsChanged(current)), src);
  }

  lemma ChangeKeepsWaiting(s: State, current: map<Source, DeviceId>, src: Source)
    requires ChannelsOk(s) && !s.env.running && src in s.lanes
    ensures var s' := Apply(s, OutputsChanged(current));
            && ChannelsOk(s') && Continues(s, s') && src in s'.lanes && !s'.env.running
            && s'.lanes[src].pendingAudio == s.lanes[src].pendingAudio
  {
    UpdatesStrand(s.(env := s.env.(outputs := current)), src);
  }

  lemma UpdatesStrand(s: State, src: Source)
    requires ChannelsOk(s) && !s.env.running && src in s.lanes
    ensures var s' := UpdateRoutes(s, s.order);
            && ChannelsOk(s') && Continues(s, s') && src in s'.lanes && !s'.env.running
            && s'.lanes[src].pendingAudio == s.lanes[src].pendingAudio
  {
    UpdatesKeepWaiting(s, s.order, src);
    UpdateRoutesChannels(s, s.order);
    UpdateRoutesKeepsEnv(s, s.order);
  }

  /**
   One owner change while audio waits and capture is off makes the next start unsafe: a
   later owner can receive what waits. Cleaning up, or starting at once, prevents it.
   */
  lemma OwnerChangeMakesStartUnsafe(steps: seq<Step>, current: map<Source, DeviceId>, src: Source, d: DeviceId)
    requires GuardedRun(INITIAL, steps) && !Run(INITIAL, steps).env.running
    requires Strands(Run(INITIAL, steps), Apply(Run(INITIAL, steps), OutputsChanged(current)), src)
    requires NotInUse(Apply(Run(INITIAL, steps), OutputsChanged(current)), d)
    ensures !AttributesForEver(Apply(Apply(Run(INITIAL, steps), OutputsChanged(current)), Start))
  {
    var change := OutputsChanged(current);
    RunStep(INITIAL, steps, change);
    assert (steps + [change])[..|steps|] == steps;
    RunOk(INITIAL, steps);
    RunChannels(INITIAL, steps);
    ChangeStrands(Run(INITIAL, steps), current, src);
    StartIsSafeExactly(steps + [change], d);
  }
}
