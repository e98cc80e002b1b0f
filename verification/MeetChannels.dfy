/**
 Channels and owners over every run, with no condition on how starts and stops follow each
 other: a device keeps its channel for ever, no two devices share one, an owned route is
 on the channel of its owner, and the generation of a route numbers its owners.
 */
module MeetChannels {
  import opened Wrappers
  import opened CapturePolicy
  import opened MeetFacts
  import opened MeetState
  import opened MeetAttribution
  import A = PcmArbitration

  /** The present generation is the last one, and its owner the present owner. */
  predicate OwnersMatch(lane: Lane) {
    && |lane.history.owners| == lane.route.generation + 1
    && lane.history.owners[lane.route.generation] == lane.route.deviceId
  }

  predicate DeskKept(desk: Desk) {
    RegistryOk(desk.registry) && ChannelOk(desk.registry, desk.lane) && OwnersMatch(desk.lane)
  }

  predicate ChannelsOk(s: State) {
    && RegistryOk(s.registry)
    && (forall src | src in s.lanes ::
          s.lanes[src].source == src && ChannelOk(s.registry, s.lanes[src]) && OwnersMatch(s.lanes[src]))
  }

  /** A device has its channel; without one it takes the route's, if that is nobody's, and else a new one. */
  function ChannelGiven(reg: Registry, route: Route, d: DeviceId): Channel {
    if d in reg.channels then reg.channels[d]
    else if route.channel !in reg.channels.Values then route.channel else reg.nextChannel
  }

  /** A new owner brings a channel along or is given one, and channels change in no other way. */
  predicate Gives(before: Desk, desk: Desk) {
    var reg, route, d := before.registry, before.lane.route, desk.lane.route.deviceId;
    if d == NO_DEVICE || d == route.deviceId then
      && desk.lane.route.channel == route.channel
      && desk.registry.channels == reg.channels && desk.registry.nextChannel == reg.nextChannel
    else
      var given := ChannelGiven(reg, route, d);
      && desk.lane.route.channel == given && desk.registry.channels == reg.channels[d := given]
      && desk.registry.nextChannel == if given == reg.nextChannel then given + 1 else reg.nextChannel
  }

  /** A step on one lane keeps its route on its owner's channel and takes no channel or owner back. */
  predicate KeepsChannels(before: Desk, desk: Desk) {
    && Gives(before, desk) && DeskKept(desk) && Grows(before.registry, desk.registry)
    && desk.lane.source == before.lane.source && before.lane.history.owners <= desk.lane.history.owners
  }

  /** No channel and no owner was taken back. */
  predicate Continues(s: State, s': State) {
    && Grows(s.registry, s'.registry)
    && forall src | src in s.lanes ::
         src in s'.lanes && s.lanes[src].history.owners <= s'.lanes[src].history.owners
  }

  // ---- Steps on one lane ----

  lemma AssignChannels(env: Env, desk: Desk, next: DeviceId)
    requires DeskKept(desk)
    ensures KeepsChannels(desk, AssignDevice(env, desk, next))
    ensures AssignDevice(env, desk, next).lane.posted == desk.lane.posted
    ensures AssignDevice(env, desk, next).lane.pendingAudio == desk.lane.pendingAudio
  {
    RegisterChannelOk(DropClaim(desk.registry, desk.lane.source, desk.lane.route.deviceId), desk.lane.route, next);
    if next != NO_DEVICE && next != desk.lane.route.deviceId {
      RegisterGives(DropClaim(desk.registry, desk.lane.source, desk.lane.route.deviceId), desk.lane, next);
    }
  }

  lemma RegisterGives(reg: Registry, lane: Lane, d: DeviceId)
    requires RegistryOk(reg) && ChannelOk(reg, lane) && d != NO_DEVICE && d != lane.route.deviceId
    ensures ChannelFor(reg, lane.route, d) == ChannelGiven(reg, lane.route, d)
    ensures var given := ChannelGiven(reg, lane.route, d);
            && RegisterChannel(reg, lane.route, d).channels == reg.channels[d := given]
            && RegisterChannel(reg, lane.route, d).nextChannel == if given == reg.nextChannel then given + 1 else reg.nextChannel
  {
    var route := lane.route;
    if d !in reg.channels {
      assert OwnedByOther(reg.channels, route.channel, d) <==> route.channel in reg.channels.Values by {
        if route.channel in reg.channels.Values {
          var o :| o in reg.channels && reg.channels[o] == route.channel;
        }
      }
    }
  }

  lemma UpdateChannels(env: Env, desk: Desk)
    requires DeskKept(desk)
    ensures KeepsChannels(desk, UpdateRoute(env, desk))
  {
    var read := ReadProtocol(env, desk.lane);
    var before, next := Desk(desk.registry, Resolved(desk.lane, read)), Resolve(read).deviceId;
    AssignChannels(env, before, next);
    UpdateIsAssign(env, desk, before, next);
    AlikeKeepsChannels(before, AssignDevice(env, before, next), desk, UpdateRoute(env, desk));
  }

  /** The same channels, and a route of the same source with the same channel and owners. */
  predicate Alike(a: Desk, b: Desk) {
    && a.registry.channels == b.registry.channels && a.registry.nextChannel == b.registry.nextChannel
    && a.lane.source == b.lane.source && a.lane.history.owners == b.lane.history.owners
    && a.lane.route.deviceId == b.lane.route.deviceId && a.lane.route.channel == b.lane.route.channel
    && a.lane.route.generation == b.lane.route.generation
  }

  lemma UpdateIsAssign(env: Env, desk: Desk, before: Desk, next: DeviceId)
    requires var read := ReadProtocol(env, desk.lane);
             before == Desk(desk.registry, Resolved(desk.lane, read)) && next == Resolve(read).deviceId
    ensures Alike(before, desk) && Alike(AssignDevice(env, before, next), UpdateRoute(env, desk))
  {
    FlushKeeps(env, Announce(env, AssignDevice(env, before, next).lane).(vote := None));
  }

  lemma AlikeKeepsChannels(a: Desk, a': Desk, b: Desk, b': Desk)
    requires KeepsChannels(a, a') && Alike(a, b) && Alike(a', b')
    ensures KeepsChannels(b, b')
  {
  }

  lemma CreateChannels(env: Env, reg: Registry, src: Source)
    requires RegistryOk(reg)
    ensures var desk := CreateRoute(env, reg, src);
            DeskKept(desk) && Grows(reg, desk.registry) && desk.lane.source == src
  {
  }

  lemma RebindChannels(env: Env, desk: Desk, candidate: DeviceId)
    requires DeskKept(desk)
    ensures KeepsChannels(desk, RebindRoute(env, desk, candidate))
  {
    var lane := desk.lane;
    var record := RebindRecord(candidate, env.now, lane.history.observations, desk.registry.claimLog);
    AssignChannels(env, Desk(desk.registry, lane.(
      route := lane.route.(activityDeviceId := candidate,
                           overriddenProtocolRawDeviceId := lane.route.protocolRawDeviceId),
      history := lane.history.(rebinds := lane.history.rebinds + [record]))), candidate);
  }

  lemma ChallengeChannels(env: Env, desk: Desk, candidate: DeviceId)
    requires DeskKept(desk) && Challenge(env, desk, candidate, true).1 == Rebind
    ensures KeepsChannels(desk, Challenge(env, desk, candidate, true).0)
  {
    ChallengeResult(env, desk, candidate, true);
    var lane := if desk.lane.challengeDeviceId != candidate then OpenChallenge(desk.lane, candidate) else desk.lane;
    RebindChannels(env, Desk(desk.registry, lane.(vote := Some(NextIdentityVote(lane.vote, candidate, env.now)))), candidate);
  }

  /** What correlation has seen when it challenges the owner. */
  function Seen(env: Env, desk: Desk, candidate: DeviceId): Desk {
    Desk(ExpireClaim(env, desk.registry, candidate), Observe(env, desk.lane, Some(candidate), true))
  }

  lemma RebindIsChallenge(env: Env, desk: Desk, peak: real, allowChallenge: bool)
    requires Correlate(env, desk, peak, allowChallenge).1 == Rebind
    ensures var sole := TheOnly(Candidates(env.users, env.active));
            sole.Some? &&
            Challenge(env, Seen(env, desk, sole.value), sole.value, true) == Correlate(env, desk, peak, allowChallenge)
  {
  }

  lemma CorrelateChannels(env: Env, desk: Desk, peak: real, allowChallenge: bool)
    requires DeskKept(desk)
    ensures KeepsChannels(desk, Correlate(env, desk, peak, allowChallenge).0)
  {
    if Correlate(env, desk, peak, allowChallenge).1 != Rebind {
      CorrelateKeepsAudio(env, desk, peak, allowChallenge);
    } else {
      var candidate := TheOnly(Candidates(env.users, env.active)).value;
      RebindIsChallenge(env, desk, peak, allowChallenge);
      ChallengeChannels(env, Seen(env, desk, candidate), candidate);
    }
  }

  lemma DeliverChannels(env: Env, desk: Desk, e: EntryId, samples: seq<real>, peak: real, allowChallenge: bool)
    requires DeskKept(desk)
    ensures KeepsChannels(desk, Deliver(env, desk, e, samples, peak, allowChallenge))
  {
    var (correlated, decision) := Correlate(env, desk, peak, allowChallenge);
    CorrelateChannels(env, desk, peak, allowChallenge);
    FollowIsAlike(env, correlated, e, samples, decision);
    AlikeKeepsChannels(desk, correlated, desk, Deliver(env, desk, e, samples, peak, allowChallenge));
  }

  lemma FollowIsAlike(env: Env, desk: Desk, e: EntryId, samples: seq<real>, decision: Decision)
    ensures Alike(desk, Desk(desk.registry, Follow(env, desk.lane, e, samples, decision)))
  {
    FlushKeeps(env, desk.lane);
    PushKeeps(env, desk.lane, e, samples);
    PushKeeps(env, FlushChallenge(env, desk.lane), e, samples);
  }

  // ---- Steps of the machine ----

  lemma PutChannels(s: State, desk: Desk)
    requires ChannelsOk(s) && DeskKept(desk) && Grows(s.registry, desk.registry)
    requires desk.lane.source in s.lanes ==> s.lanes[desk.lane.source].history.owners <= desk.lane.history.owners
    ensures ChannelsOk(Put(s, desk)) && Continues(s, Put(s, desk))
  {
  }

  lemma RouteForSourceChannels(s: State, src: Source)
    requires ChannelsOk(s)
    ensures ChannelsOk(WithRoute(s, src)) && Continues(s, WithRoute(s, src))
    ensures var desk := RouteForSource(s, src);
            && DeskKept(desk) && desk.lane.source == src && WithRoute(s, src).registry == desk.registry
            && src in WithRoute(s, src).lanes && WithRoute(s, src).lanes[src] == desk.lane
  {
    if src in s.lanes {
      UpdateChannels(s.env, Desk(s.registry, s.lanes[src]));
    } else {
      CreateChannels(s.env, s.registry, src);
    }
    PutChannels(if src in s.lanes then s else s.(order := s.order + [src]), RouteForSource(s, src));
  }

  lemma {:induction false} UpdateRoutesChannels(s: State, order: seq<Source>)
    requires ChannelsOk(s)
    ensures ChannelsOk(UpdateRoutes(s, order)) && Continues(s, UpdateRoutes(s, order))
    decreases |order|
  {
    if order != [] {
      if order[0] in s.lanes {
        UpdateChannels(s.env, Desk(s.registry, s.lanes[order[0]]));
        PutChannels(s, UpdateRoute(s.env, Desk(s.registry, s.lanes[order[0]])));
        var s1 := Put(s, UpdateRoute(s.env, Desk(s.registry, s.lanes[order[0]])));
        UpdateRoutesChannels(s1, order[1..]);
        ContinuesOn(s, s1, UpdateRoutes(s1, order[1..]));
      } else {
        UpdateRoutesChannels(s, order[1..]);
      }
    }
  }

  lemma ContinuesOn(a: State, b: State, c: State)
    requires Continues(a, b) && Continues(b, c)
    ensures Continues(a, c)
  {
  }

  lemma DecodedChannels(s: State, src: Source, e: EntryId, samples: seq<real>, peak: real, allowChallenge: bool)
    requires ChannelsOk(s) && src in s.lanes && e in s.env.entries
    ensures var s' := ReceiveDecoded(s, e, src, samples, peak, allowChallenge);
            ChannelsOk(s') && Continues(s, s')
  {
    var desk := Desk(s.registry, s.lanes[src]);
    DeliverChannels(s.env, desk, e, samples, peak, allowChallenge);
    PutChannels(s, Deliver(s.env, desk, e, samples, peak, allowChallenge));
  }

  lemma NativeChannels(s: State, src: Source, e: EntryId, samples: seq<real>, peak: real, isSelf: bool)
    requires ChannelsOk(s)
    ensures var s' := ReceiveNative(s, e, src, samples, peak, isSelf);
            ChannelsOk(s') && Continues(s, s')
  {
    if s.env.running && Routable(src) && !isSelf {
      RouteForSourceChannels(s, src);
      var s1, desk := WithRoute(s, src), Deliver(s.env, RouteForSource(s, src), e, samples, peak, true);
      DeliverChannels(s.env, RouteForSource(s, src), e, samples, peak, true);
      PutChannels(s1, desk);
      ContinuesOn(s, s1, Put(s1, desk));
    } else {
      RouteForSourceChannels(s, src);
    }
  }

  lemma FrameChannels(s: State, src: Source, e: EntryId, level: Option<real>, candidate: bool,
                      native: Option<EntryId>, isSelf: bool)
    requires ChannelsOk(s) && e in s.env.entries
    ensures var s' := ReceiveEncoded(s, e, src, level, candidate, native, isSelf);
            ChannelsOk(s') && Continues(s, s')
  {
    RouteForSourceChannels(s, src);
    if s.env.running && Routable(src) && !isSelf {
      FrameKept(WithRoute(s, src), RouteForSource(s, src).lane, s.env.entries[e].receiver,
        level.Some? && level.value >= A.AUDIBLE_LEVEL, candidate, native);
      ContinuesOn(s, WithRoute(s, src), ReceiveEncoded(s, e, src, level, candidate, native, isSelf));
    }
  }

  lemma FrameKept(s: State, lane: Lane, receiver: Receiver, audible: bool, candidate: bool, native: Option<EntryId>)
    requires ChannelsOk(s) && lane.source in s.lanes && s.lanes[lane.source] == lane
    ensures var s' := Put(s, Desk(s.registry, ReceiveFrame(s.env, lane, receiver, audible, candidate, native)));
            ChannelsOk(s') && Continues(s, s')
  {
    PutChannels(s, Desk(s.registry, ReceiveFrame(s.env, lane, receiver, audible, candidate, native)));
  }

  lemma SameRoutesKept(s: State, s': State)
    requires ChannelsOk(s) && SameRoutes(s, s')
    requires s'.registry.channels == s.registry.channels && s.registry.nextChannel <= s'.registry.nextChannel
    ensures ChannelsOk(s') && Continues(s, s')
  {
    forall src | src in s'.lanes ensures DeskKept(Desk(s'.registry, s'.lanes[src])) && s'.lanes[src].source == src {
      assert src in s.lanes;
    }
  }

  lemma LanesKeepChannels(s: State, step: Step)
    requires ChannelsOk(s) && Enabled(s, step)
    requires !step.NativePcm? && !step.EncodedFrame? && !step.EncodedPcm? && !step.UsersChanged? && !step.OutputsChanged?
    ensures ChannelsOk(Apply(s, step)) && Continues(s, Apply(s, step))
  {
    QuietSteps(s, step);
    SameRoutesKept(s, Apply(s, step));
  }

  lemma StepChannels(s: State, step: Step)
    requires ChannelsOk(s)
    ensures ChannelsOk(Apply(s, step)) && Continues(s, Apply(s, step))
  {
    if Enabled(s, step) {
      match step
      case NativePcm(id, source, samples, peak, isSelf) => NativeChannels(s, source, id, samples, peak, isSelf);
      case EncodedFrame(id, source, level, candidate, native, isSelf) =>
        FrameChannels(s, source, id, level, candidate, native, isSelf);
      case EncodedPcm(id, source, samples, peak, allowChallenge) =>
        DecodedChannels(s, source, id, samples, peak, allowChallenge);
      case UsersChanged(known) => UpdateRoutesChannels(s.(env := s.env.(users := known)), s.order);
      case OutputsChanged(current) => UpdateRoutesChannels(s.(env := s.env.(outputs := current)), s.order);
      case _ => LanesKeepChannels(s, step);
    }
  }

  lemma {:induction false} RunChannels(s: State, steps: seq<Step>)
    requires ChannelsOk(s)
    ensures ChannelsOk(Run(s, steps)) && Continues(s, Run(s, steps))
    decreases |steps|
  {
    if steps != [] {
      var s1 := Run(s, steps[..|steps| - 1]);
      RunChannels(s, steps[..|steps| - 1]);
      StepChannels(s1, steps[|steps| - 1]);
      ContinuesOn(s, s1, Run(s, steps));
    }
  }

  // ---- Main results ----

  /** No device ever changes its channel, no two devices share one, and an owned route is on its owner's. */
  lemma ChannelsArePermanent(steps: seq<Step>, later: seq<Step>)
    ensures var s, s' := Run(INITIAL, steps), Run(INITIAL, steps + later);
            && Extends(s.registry.channels, s'.registry.channels)
            && (forall d, e | d in s'.registry.channels && e in s'.registry.channels ::
                  s'.registry.channels[d] == s'.registry.channels[e] ==> d == e)
            && (forall src | src in s'.lanes && s'.lanes[src].route.deviceId != NO_DEVICE ::
                  OnChannelOf(s'.registry.channels, s'.lanes[src].route.channel, s'.lanes[src].route.deviceId))
  {
    RunContinues(INITIAL, steps, later);
    RunChannels(INITIAL, steps);
    RunChannels(Run(INITIAL, steps), later);
  }

  /**
   After every run, whoever an update or a chunk makes the owner of a route keeps its channel,
   or takes the route's if that is nobody's, or gets a new one; nobody else's changes.
   */
  lemma ChannelIsGivenExactly(steps: seq<Step>, src: Source, env: Env, e: EntryId, samples: seq<real>, peak: real,
                              allowChallenge: bool)
    requires src in Run(INITIAL, steps).lanes
    ensures var desk := Desk(Run(INITIAL, steps).registry, Run(INITIAL, steps).lanes[src]);
            Gives(desk, UpdateRoute(env, desk)) && Gives(desk, Deliver(env, desk, e, samples, peak, allowChallenge))
  {
    var s := Run(INITIAL, steps);
    RunChannels(INITIAL, steps);
    UpdateChannels(env, Desk(s.registry, s.lanes[src]));
    DeliverChannels(env, Desk(s.registry, s.lanes[src]), e, samples, peak, allowChallenge);
  }

  /** While fewer than 999 channels are handed out, no route is on the microphone's channel or the mixed one. */
  lemma RoutesAvoidReservedChannels(steps: seq<Step>, src: Source)
    requires src in Run(INITIAL, steps).lanes && Run(INITIAL, steps).registry.nextChannel <= MIC_CHANNEL - 1
    ensures Run(INITIAL, steps).lanes[src].route.channel < MIC_CHANNEL - 1
  {
    RunChannels(INITIAL, steps);
    assert ChannelOk(Run(INITIAL, steps).registry, Run(INITIAL, steps).lanes[src]);
  }
}
