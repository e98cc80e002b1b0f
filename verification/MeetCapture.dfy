/**
 The routing machine in the form of `browser-extension/src/page-capture.js`: module
 state changed in place. Every operation is proved against the step of `MeetState` it
 carries out, so what is proved about those steps holds of these methods.
 */
module MeetCapture {
  import opened Wrappers
  import opened CapturePolicy
  import opened MeetAttribution
  import opened MeetChannels
  import opened MeetFacts
  import opened MeetFraming
  import opened MeetLifecycle
  import opened MeetState
  import opened PcmFraming
  import A = PcmArbitration
  import G = MeetStartGuard
  import R = MeetRuns

  /** An update up to the announcement of its route. */
  function Settled(env: Env, desk: Desk): Desk {
    var read := ReadProtocol(env, desk.lane);
    var moved := AssignDevice(env, Desk(desk.registry, Resolved(desk.lane, read)), Resolve(read).deviceId);
    Desk(moved.registry, Announce(env, moved.lane))
  }

  lemma UpdatedBy(env: Env, desk: Desk)
    ensures var deviceId, settled := Resolve(ReadProtocol(env, desk.lane)).deviceId, Settled(env, desk);
            UpdateRoute(env, desk) ==
               if ConfirmsChallenge(desk.lane, deviceId)
               then Desk(Confirm(settled.registry, desk.lane.source, deviceId, env.now),
                         FlushChallenge(env, settled.lane.(vote := None)))
               else settled
  {
  }

  /** An owner change, put together from its parts. */
  lemma AssignedBy(env: Env, desk: Desk, next: DeviceId, reg: Registry, lane: Lane)
    requires next != desk.lane.route.deviceId
    requires reg == RegisterChannel(DropClaim(desk.registry, desk.lane.source, desk.lane.route.deviceId),
                                    desk.lane.route, next)
    requires lane == ResetPcm(env, desk.lane.(
               route := desk.lane.route.(deviceId := next, channel := ChannelFor(desk.registry, desk.lane.route, next),
                                         generation := desk.lane.route.generation + 1),
               history := desk.lane.history.(owners := desk.lane.history.owners + [next])))
    ensures AssignDevice(env, desk, next) == Desk(reg, lane)
  {
  }

  function Overriding(env: Env, desk: Desk, candidate: DeviceId): Lane {
    var lane := desk.lane;
    lane.(route := lane.route.(activityDeviceId := candidate,
                               overriddenProtocolRawDeviceId := lane.route.protocolRawDeviceId),
          history := lane.history.(rebinds := lane.history.rebinds +
            [RebindRecord(candidate, env.now, lane.history.observations, desk.registry.claimLog)]))
  }

  /** A rebind, put together from its parts. */
  lemma ReboundBy(env: Env, desk: Desk, candidate: DeviceId)
    ensures var moved := AssignDevice(env, Desk(desk.registry, Overriding(env, desk, candidate)), candidate);
            RebindRoute(env, desk, candidate) ==
            Desk(Confirm(moved.registry, desk.lane.source, candidate, env.now), Announce(env, moved.lane.(vote := None)))
  {
  }

  /** Claiming and then preferring the native path is accepting the block. */
  lemma AcceptedBy(env: Env, lane: Lane, entry: Entry, e: EntryId)
    ensures var claimed := lane.(ledger := A.Claim(lane.ledger, entry.receiver, entry.path, env.now));
            AcceptBlock(env, lane, entry, e) ==
            if entry.path == A.Encoded then claimed
            else claimed.(
              ledger := A.PreferNative(claimed.ledger, entry.receiver, env.now),
              buffers := map k | k in claimed.buffers && !DroppedByNative(env, claimed, entry.receiver, e, k)
                         :: claimed.buffers[k])
  {
  }

  method PeakOf(block: seq<Sample>) returns (peak: real)
    ensures peak == Peak(Levels(block))
  {
    peak := 0.0;
    for i := 0 to |block|
      invariant peak == Peak(Levels(block)[..i])
    {
      assert Levels(block)[..i + 1][..i] == Levels(block)[..i];
      peak := Max(peak, Abs(block[i].level));
    }
    assert Levels(block)[..|block|] == Levels(block);
  }

  /** Any receiver may claim the source now, on either path. */
  ghost predicate FreeToClaim(ledger: A.Ledger, now: Time) {
    forall receiver: Receiver, path :: A.Claimable(ledger, receiver, path, now)
  }

  /** What holds of the machine after any run of its steps. */
  ghost predicate Promises(s: State, steps: seq<Step>) {
    && ChannelsOk(s)
    && R.StateInv(s)
    && (Lifecycle(steps) ==> Attributed(s))
  }

  lemma RunKeepsPromises(steps: seq<Step>)
    ensures Promises(Run(INITIAL, steps), steps)
  {
    RunChannels(INITIAL, steps);
    R.RunInv(steps);
    if Lifecycle(steps) {
      EveryBlockIsAttributed(steps);
    }
  }

  /** The lanes after the routes in `done` were announced. */
  function AnnouncedIn(env: Env, lanes: map<Source, Lane>, done: seq<Source>): map<Source, Lane> {
    map src | src in lanes :: if src in done then Announce(env, lanes[src]) else lanes[src]
  }

  lemma AnnouncedNext(env: Env, lanes: map<Source, Lane>, done: seq<Source>, src: Source)
    ensures var before, after := AnnouncedIn(env, lanes, done), AnnouncedIn(env, lanes, done + [src]);
            after == if src in before then before[src := Announce(env, before[src])] else before
  {
    if src in lanes {
      assert Announce(env, Announce(env, lanes[src])) == Announce(env, lanes[src]);
    }
  }

  class Capture {
    var running: bool
    var now: Time
    var micOpen: bool
    var active: seq<Active>
    var users: map<DeviceId, User>
    var outputs: map<Source, DeviceId>
    var entries: map<EntryId, Entry>
    var nextChannel: Channel
    var channels: map<DeviceId, Channel>
    var claims: map<DeviceId, Claim>
    var lanes: map<Source, Lane>
    var order: seq<Source>
    var claimLog: seq<ClaimEvent>  // history, read by nothing
    ghost var steps: seq<Step>     // what has happened since the page was loaded

    ghost function EnvView(): Env
      reads this
    {
      Env(running, now, micOpen, active, users, outputs, entries)
    }

    ghost function RegistryView(): Registry
      reads this
    {
      Registry(nextChannel, channels, claims, claimLog)
    }

    ghost function View(): State
      reads this
    {
      State(EnvView(), RegistryView(), lanes, order)
    }

    /**
     The object is what the steps so far make of a new one, and keeps what every run of
     them keeps: channels for ever, warranted rebinds, the longest challenge, the
     arbitration rules, and the attribution of every published block.
     */
    ghost predicate Valid()
      reads this
    {
      View() == Run(INITIAL, steps) && Promises(View(), steps)
    }

    constructor ()
      ensures Valid() && steps == []
    {
      running, now, micOpen, active := false, 0.0, false, [];
      users, outputs, entries := map[], map[], map[];
      nextChannel, channels, claims := 1, map[], map[];
      lanes, order, claimLog := map[], [], [];
      steps := [];
      RunKeepsPromises([]);
    }

    // ---- Audio of one route ----

    method AnnounceRoute(src: Source)
      requires src in lanes
      modifies this`lanes
      ensures lanes == old(lanes)[src := Announce(EnvView(), old(lanes[src]))]
    {
      var lane := lanes[src];
      if !running || lane.route.deviceId == NO_DEVICE {
        return;
      }
      var posted := lane.posted;
      for i := 0 to |lane.pendingAudio|
        invariant posted == lane.posted + OnChannel(lane.pendingAudio[..i], lane.route.channel)
      {
        assert OnChannel(lane.pendingAudio[..i + 1], lane.route.channel) ==
               OnChannel(lane.pendingAudio[..i], lane.route.channel) + [Audio(lane.route.channel, lane.pendingAudio[i])];
        posted := posted + [Audio(lane.route.channel, lane.pendingAudio[i])];
      }
      assert lane.pendingAudio[..|lane.pendingAudio|] == lane.pendingAudio;
      lanes := lanes[src := lane.(posted := posted, pendingAudio := [])];
    }

    method ClearRouteChallenge(src: Source)
      requires src in lanes
      modifies this`lanes
      ensures lanes == old(lanes)[src := ClearChallenge(old(lanes[src]))]
    {
      lanes := lanes[src := lanes[src].(challengeAudio := [], challengeSamples := 0, challengeDeviceId := NO_DEVICE,
                                        history := lanes[src].history.(held := []))];
    }

    method HoldRoutePcm(src: Source, e: EntryId, samples: seq<real>)
      requires src in lanes
      modifies this`lanes
      ensures lanes == old(lanes)[src := HoldPcm(old(lanes[src]), e, samples)]
    {
      var lane := lanes[src];
      var audio := lane.challengeAudio + [Chunk(e, samples)];
      var total := lane.challengeSamples + |samples|;
      while total > CHALLENGE_SAMPLES && |audio| > 1
        invariant TrimChallenge(audio, total) ==
                  TrimChallenge(lane.challengeAudio + [Chunk(e, samples)], lane.challengeSamples + |samples|)
        decreases |audio|
      {
        total := total - |audio[0].samples|;
        audio := audio[1..];
      }
      lanes := lanes[src := lane.(challengeAudio := audio, challengeSamples := total,
                                  history := lane.history.(held := lane.history.held + [Chunk(e, samples)]))];
    }

    method ResetSourcePcm(src: Source)
      requires src in lanes
      modifies this`lanes
      ensures lanes == old(lanes)[src := ResetPcm(EnvView(), old(lanes[src]))]
      ensures FreeToClaim(lanes[src].ledger, now)
      ensures forall e :: e in lanes[src].buffers <==> e in old(lanes[src]).buffers && !Live(EnvView(), e)
    {
      var lane := lanes[src];
      var tapped := set e | e in entries && !entries[e].released && entries[e].path == A.Encoded :: entries[e].receiver;
      assert tapped == TappedReceivers(EnvView());
      var kept := map e | e in lane.buffers && (e !in entries || entries[e].released) :: lane.buffers[e];
      assert kept == ResetPcm(EnvView(), lane).buffers;
      lanes := lanes[src := lane.(buffers := kept, ledger := A.Forget(lane.ledger, tapped))];
    }

    method ClaimPcmSource(src: Source, e: EntryId) returns (accepted: bool)
      requires src in lanes && e in entries
      modifies this`lanes
      ensures accepted == A.Claimable(old(lanes[src]).ledger, entries[e].receiver, entries[e].path, now)
      ensures lanes == if accepted
        then old(lanes)[src := old(lanes[src]).(ledger :=
               A.Claim(old(lanes[src]).ledger, entries[e].receiver, entries[e].path, now))]
        else old(lanes)
    {
      var entry, lane := entries[e], lanes[src];
      accepted := A.Claimable(lane.ledger, entry.receiver, entry.path, now);
      if accepted {
        lanes := lanes[src := lane.(ledger := A.Claim(lane.ledger, entry.receiver, entry.path, now))];
      }
    }

    method PreferNativePcm(src: Source, e: EntryId)
      requires src in lanes && e in entries
      modifies this`lanes
      ensures var lane := old(lanes[src]);
              lanes == old(lanes)[src := lane.(
                ledger := A.PreferNative(lane.ledger, entries[e].receiver, now),
                buffers := map k | k in lane.buffers && !DroppedByNative(EnvView(), lane, entries[e].receiver, e, k)
                           :: lane.buffers[k])]
    {
      var lane, receiver := lanes[src], entries[e].receiver;
      var recovered := A.CanPublish(lane.ledger, receiver);
      var buffers := if recovered then lane.buffers - {e} else lane.buffers;
      var taps := set k | k in entries && !entries[k].released && entries[k].path == A.Encoded
                                       && entries[k].receiver == receiver;
      buffers := buffers - taps;
      lanes := lanes[src := lane.(ledger := A.PreferNative(lane.ledger, receiver, now), buffers := buffers)];
      assert buffers == map k | k in lane.buffers && !DroppedByNative(EnvView(), lane, receiver, e, k) :: lane.buffers[k];
    }

    method KeepOrPost(src: Source, block: seq<Sample>)
      requires src in lanes
      modifies this`lanes
      ensures lanes == old(lanes)[src := PutFrame(old(lanes[src]), block)]
    {
      var lane := lanes[src];
      if lane.route.deviceId == NO_DEVICE {
        var pending := lane.pendingAudio + [block];
        if |pending| > PENDING_FRAMES {
          pending := pending[1..];
        }
        lanes := lanes[src := lane.(pendingAudio := pending)];
      } else {
        lanes := lanes[src := lane.(posted := lane.posted + [Audio(lane.route.channel, block)])];
      }
    }

    method OnTrackPcm(src: Source, e: EntryId, block: seq<Sample>)
      requires src in lanes && e in entries
      modifies this`lanes
      ensures lanes == old(lanes)[src := MeetState.OnTrackPcm(EnvView(), old(lanes[src]), entries[e], e, block)]
    {
      if lanes[src].route.channel == MIC_CHANNEL && !micOpen {
        return;
      }
      ghost var lane := lanes[src];
      var accepted := ClaimPcmSource(src, e);
      if !accepted {
        return;
      }
      if entries[e].path == A.Native {
        PreferNativePcm(src, e);
      }
      AcceptedBy(EnvView(), lane, entries[e], e);
      AnnounceRoute(src);
      KeepOrPost(src, block);
    }

    /** What happens to one full buffer. */
    method PublishFull(src: Source, e: EntryId, block: seq<Sample>)
      requires src in lanes && e in entries
      modifies this`lanes
      ensures lanes == old(lanes)[src := OnBlock(EnvView(), old(lanes[src]), entries[e], e, block)]
    {
      var peak := PeakOf(block);
      if peak >= PEAK_THRESHOLD && !entries[e].released {
        OnTrackPcm(src, e, block);
      }
    }

    /** The framing loop: fills the buffer and publishes each full, audible block; returns what is left in it. */
    method FillBuffer(src: Source, e: EntryId, kept: seq<Sample>, samples: seq<real>, generation: nat)
      returns (buffer: seq<Sample>)
      requires src in lanes && e in entries && |kept| < BLOCK
      modifies this`lanes
      ensures buffer == Residue(kept + Stamp(samples, generation))
      ensures lanes == old(lanes)[src :=
        OnBlocks(EnvView(), old(lanes[src]), entries[e], e, Blocks(kept + Stamp(samples, generation)))]
    {
      buffer := kept;
      ghost var env, present := EnvView(), lanes[src];
      var offset := 0;
      FedEnds(kept, samples, generation);
      while offset < |samples|
        invariant offset <= |samples| && |buffer| < BLOCK
        invariant src in lanes && lanes == old(lanes)[src := lanes[src]]
        invariant Filled(env, present, entries[e], e, kept, generation, samples, offset, buffer, lanes[src])
      {
        var count := if |samples| - offset < BLOCK - |buffer| then |samples| - offset else BLOCK - |buffer|;
        FillStep(env, present, entries[e], e, kept, generation, samples, offset, count, buffer, lanes[src]);
        buffer := buffer + Stamp(samples[offset..offset + count], generation);
        offset := offset + count;
        if |buffer| == BLOCK {
          ghost var before, after := lanes[src], OnBlock(env, lanes[src], entries[e], e, buffer);
          assert Filled(env, present, entries[e], e, kept, generation, samples, offset, [], after);
          PublishFull(src, e, buffer);
          UpdatedTwice(old(lanes), src, before, after);
          buffer := [];
        }
      }
    }

    method PushTrackProcessorPcm(src: Source, e: EntryId, samples: seq<real>)
      requires src in lanes
      modifies this`lanes
      ensures lanes == old(lanes)[src := PushPcm(EnvView(), old(lanes[src]), e, samples)]
    {
      if !running || e !in entries {
        return;
      }
      var generation := lanes[src].route.generation;
      var buffer := if e in lanes[src].buffers then lanes[src].buffers[e] else [];
      lanes := lanes[src := lanes[src].(buffers := lanes[src].buffers[e := buffer])];
      buffer := FillBuffer(src, e, buffer, samples, generation);
      if e in lanes[src].buffers {
        lanes := lanes[src := lanes[src].(buffers := lanes[src].buffers[e := buffer])];
      }
    }

    // ---- Ownership of one route ----

    ghost function DeskView(src: Source): Desk
      requires src in lanes
      reads this
    {
      Desk(RegistryView(), lanes[src])
    }

    ghost predicate Keyed()
      reads this
    {
      forall src | src in lanes :: lanes[src].source == src
    }

    method FlushRouteChallenge(src: Source)
      requires src in lanes
      modifies this`lanes
      ensures lanes == old(lanes)[src := FlushChallenge(EnvView(), old(lanes[src]))]
    {
      var buffered := lanes[src].challengeAudio;
      ghost var goal := FlushChallenge(EnvView(), lanes[src]);
      lanes := lanes[src := Recorded(lanes[src])];
      ClearRouteChallenge(src);
      assert buffered[0..] == buffered;
      for i := 0 to |buffered|
        invariant src in lanes && lanes == old(lanes)[src := lanes[src]]
        invariant PushChunks(EnvView(), lanes[src], buffered[i..]) == goal
      {
        assert buffered[i..][1..] == buffered[i + 1..];
        PushTrackProcessorPcm(src, buffered[i].entry, buffered[i].samples);
      }
    }

    /** Whether another device already has this channel. */
    method ChannelTaken(channel: Channel, deviceId: DeviceId) returns (taken: bool)
      ensures taken == OwnedByOther(channels, channel, deviceId)
    {
      taken := false;
      var rest := channels.Keys;
      while rest != {} && !taken
        invariant rest <= channels.Keys
        invariant taken ==> OwnedByOther(channels, channel, deviceId)
        invariant !taken ==> forall d | d in channels.Keys - rest :: d == deviceId || channels[d] != channel
        decreases |rest|
      {
        var d :| d in rest;
        rest := rest - {d};
        taken := d != deviceId && channels[d] == channel;
      }
    }

    method GiveChannel(src: Source, previous: DeviceId, next: DeviceId) returns (channel: Channel)
      requires src in lanes && previous == lanes[src].route.deviceId
      modifies this`channels, this`nextChannel
      ensures channel == ChannelFor(old(RegistryView()), lanes[src].route, next)
      ensures RegistryView() == RegisterChannel(old(RegistryView()), lanes[src].route, next)
    {
      channel := lanes[src].route.channel;
      if next != NO_DEVICE {
        var taken := ChannelTaken(channel, next);
        if next in channels {
          channel := channels[next];
        } else if previous != NO_DEVICE || taken {
          channel := nextChannel;
          nextChannel := nextChannel + 1;
          channels := channels[next := channel];
        } else {
          channels := channels[next := channel];
        }
      }
    }

    method AssignRouteDevice(src: Source, next: DeviceId)
      requires src in lanes
      modifies this`lanes, this`channels, this`nextChannel, this`claims, this`claimLog
      ensures src in lanes && lanes == old(lanes)[src := lanes[src]]
      ensures DeskView(src) == AssignDevice(EnvView(), old(DeskView(src)), next)
      ensures lanes[src].source == old(lanes[src]).source
    {
      if next != lanes[src].route.deviceId {
        MoveRoute(src, next);
      }
    }

    method DropOwnClaim(src: Source, previous: DeviceId)
      modifies this`claims, this`claimLog
      ensures RegistryView() == DropClaim(old(RegistryView()), src, previous)
    {
      if previous in claims && claims[previous].source == src {
        claims := claims - {previous};
      }
      claimLog := claimLog + [Lost(src, previous)];
    }

    method MoveRoute(src: Source, next: DeviceId)
      requires src in lanes && next != lanes[src].route.deviceId
      modifies this`lanes, this`channels, this`nextChannel, this`claims, this`claimLog
      ensures src in lanes && lanes == old(lanes)[src := lanes[src]]
      ensures DeskView(src) == AssignDevice(EnvView(), old(DeskView(src)), next)
      ensures lanes[src].source == old(lanes[src]).source
    {
      ghost var desk, before := DeskView(src), lanes;
      var lane := lanes[src];
      DropOwnClaim(lane.source, lane.route.deviceId);
      var channel := GiveChannel(src, lane.route.deviceId, next);
      var moved := lane.(
        route := lane.route.(deviceId := next, channel := channel, generation := lane.route.generation + 1),
        history := lane.history.(owners := lane.history.owners + [next]));
      lanes := lanes[src := moved];
      ResetSourcePcm(src);
      UpdatedTwice(before, src, moved, lanes[src]);
      AssignedBy(EnvView(), desk, next, RegistryView(), lanes[src]);
    }

    method ConfirmClaim(src: Source, deviceId: DeviceId)
      modifies this`claims, this`claimLog
      ensures RegistryView() == Confirm(old(RegistryView()), src, deviceId, now)
    {
      claims := claims[deviceId := Claim(src, now)];
      claimLog := claimLog + [Confirmed(src, deviceId, now)];
    }

    /** Reads the protocol and settles the owner's fields; tells the owner and whether it confirms a challenge. */
    method ResolveOwner(src: Source) returns (deviceId: DeviceId, confirms: bool)
      requires src in lanes
      modifies this`lanes
      ensures var lane := old(lanes[src]);
              var read := ReadProtocol(EnvView(), lane);
              && deviceId == Resolve(read).deviceId
              && confirms == ConfirmsChallenge(lane, deviceId)
              && lanes == old(lanes)[src := Resolved(lane, read)]
    {
      var lane := lanes[src];
      var route := lane.route;
      var known := lane.source in outputs;
      var raw := if known then outputs[lane.source] else NO_DEVICE;
      route := route.(
        protocolStale := !known && (route.protocolStale || route.protocolRawDeviceId != NO_DEVICE),
        protocolRawDeviceId := raw,
        protocolDeviceId := CanonicalDevice(users, raw));
      var identity := ResolveRouteIdentity(route.protocolRawDeviceId, route.protocolDeviceId, route.deviceId,
        route.activityDeviceId, route.overriddenProtocolRawDeviceId, route.protocolStale);
      deviceId := identity.deviceId;
      confirms := deviceId != NO_DEVICE && deviceId == lane.challengeDeviceId && lane.challengeAudio != [];
      lanes := lanes[src := lane.(route := route.(
        activityDeviceId := identity.activityDeviceId,
        overriddenProtocolRawDeviceId := identity.overriddenProtocolRawDeviceId))];
      if deviceId != route.deviceId && !confirms {
        ClearRouteChallenge(src);
      }
    }

    /** The protocol named the challenger: what was held is its. */
    method AcceptChallenge(src: Source, deviceId: DeviceId)
      requires src in lanes
      modifies this`lanes, this`claims, this`claimLog
      ensures src in lanes && lanes == old(lanes)[src := lanes[src]]
      ensures lanes[src] == FlushChallenge(EnvView(), old(lanes[src]).(vote := None))
      ensures lanes[src].source == old(lanes[src]).source
      ensures RegistryView() == Confirm(old(RegistryView()), src, deviceId, now)
    {
      lanes := lanes[src := lanes[src].(vote := None)];
      ConfirmClaim(src, deviceId);
      FlushKeeps(EnvView(), lanes[src]);
      FlushRouteChallenge(src);
    }

    method SettleOwner(src: Source) returns (deviceId: DeviceId, confirms: bool)
      requires src in lanes
      modifies this`lanes, this`channels, this`nextChannel, this`claims, this`claimLog
      ensures src in lanes && lanes == old(lanes)[src := lanes[src]]
      ensures DeskView(src) == Settled(EnvView(), old(DeskView(src)))
      ensures lanes[src].source == old(lanes[src]).source
      ensures deviceId == Resolve(ReadProtocol(EnvView(), old(lanes[src]))).deviceId
      ensures confirms == ConfirmsChallenge(old(lanes[src]), deviceId)
    {
      ghost var before := lanes;
      deviceId, confirms := ResolveOwner(src);
      ghost var resolved := lanes[src];
      AssignRouteDevice(src, deviceId);
      ghost var moved := lanes[src];
      AnnounceRoute(src);
      UpdatedTwice(before, src, resolved, moved);
      UpdatedTwice(before, src, moved, lanes[src]);
    }

    method UpdateRouteIdentity(src: Source)
      requires src in lanes && lanes[src].source == src
      modifies this`lanes, this`channels, this`nextChannel, this`claims, this`claimLog
      ensures src in lanes && lanes == old(lanes)[src := lanes[src]]
      ensures DeskView(src) == UpdateRoute(EnvView(), old(DeskView(src)))
      ensures lanes[src].source == src
    {
      ghost var env, desk, before := EnvView(), DeskView(src), lanes;
      var deviceId, confirms := SettleOwner(src);
      ghost var settled := lanes[src];
      FinishUpdate(src, deviceId, confirms);
      UpdatedTwice(before, src, settled, lanes[src]);
      UpdatedBy(env, desk);
    }

    method FinishUpdate(src: Source, deviceId: DeviceId, confirms: bool)
      requires src in lanes
      modifies this`lanes, this`claims, this`claimLog
      ensures src in lanes && lanes == old(lanes)[src := lanes[src]]
      ensures DeskView(src) == if !confirms then old(DeskView(src)) else
                Desk(Confirm(old(RegistryView()), src, deviceId, now),
                     FlushChallenge(EnvView(), old(lanes[src]).(vote := None)))
      ensures lanes[src].source == old(lanes[src]).source
    {
      if confirms {
        AcceptChallenge(src, deviceId);
      }
    }

    method CreateRoute(src: Source)
      requires src !in lanes
      modifies this`lanes, this`order, this`channels, this`nextChannel
      ensures src in lanes && lanes == old(lanes)[src := lanes[src]] && order == old(order) + [src]
      ensures DeskView(src) == MeetState.CreateRoute(EnvView(), old(RegistryView()), src)
    {
      var raw := if src in outputs then outputs[src] else NO_DEVICE;
      var deviceId := CanonicalDevice(users, raw);
      var channel := nextChannel;
      if deviceId != NO_DEVICE && deviceId in channels {
        channel := channels[deviceId];
      } else {
        nextChannel := nextChannel + 1;
      }
      lanes := lanes[src := NewLane(src, Route(deviceId, raw, deviceId, NO_DEVICE, NO_DEVICE, false, 0, channel))];
      order := order + [src];
      if deviceId != NO_DEVICE {
        channels := channels[deviceId := channel];
      }
    }

    method RefreshRoute(src: Source)
      requires src in lanes && lanes[src].source == src
      modifies this`lanes, this`channels, this`nextChannel, this`claims, this`claimLog
      ensures src in lanes && lanes == old(lanes)[src := lanes[src]]
      ensures var updated := UpdateRoute(EnvView(), old(DeskView(src)));
              DeskView(src) == Desk(updated.registry, Announce(EnvView(), updated.lane))
      ensures lanes[src].source == src
    {
      UpdateRouteIdentity(src);
      ghost var updated := lanes[src];
      AnnounceRoute(src);
      UpdatedTwice(old(lanes), src, updated, lanes[src]);
    }

    /** The route of a source, created or brought up to date; none for the reserved sources. */
    method RouteForSource(src: Source) returns (found: bool)
      requires Keyed()
      modifies this`lanes, this`order, this`channels, this`nextChannel, this`claims, this`claimLog
      ensures found == Routable(src)
      ensures !found ==> View() == old(View())
      ensures found ==>
        && src in lanes && lanes == old(lanes)[src := lanes[src]]
        && order == (if src in old(lanes) then old(order) else old(order) + [src])
        && DeskView(src) == MeetState.RouteForSource(old(View()), src)
      ensures Keyed()
    {
      if src == "" || src == VIDEO_SOURCE {
        return false;
      }
      found := true;
      if src in lanes {
        RefreshRoute(src);
      } else {
        CreateRoute(src);
      }
    }

    method UpdateIfKnown(src: Source)
      requires Keyed()
      modifies this`lanes, this`channels, this`nextChannel, this`claims, this`claimLog
      ensures View() == (if src in old(lanes) then Put(old(View()), UpdateRoute(EnvView(), old(DeskView(src)))) else old(View()))
      ensures Keyed()
    {
      if src in lanes {
        UpdateRouteIdentity(src);
      }
    }

    method UpdateAllRoutes()
      requires Keyed()
      modifies this`lanes, this`channels, this`nextChannel, this`claims, this`claimLog
      ensures View() == UpdateRoutes(old(View()), order)
      ensures Keyed()
    {
      assert order[0..] == order;
      for i := 0 to |order|
        invariant Keyed()
        invariant UpdateRoutes(View(), order[i..]) == UpdateRoutes(old(View()), order)
      {
        assert order[i..][1..] == order[i + 1..];
        UpdateIfKnown(order[i]);
      }
    }

    method ApplyMeetUsers(known: map<DeviceId, User>)
      requires Keyed() && NO_DEVICE !in known
      modifies this`users, this`lanes, this`channels, this`nextChannel, this`claims, this`claimLog
      ensures View() == UpdateRoutes(old(View()).(env := old(EnvView()).(users := known)), order) && Keyed()
    {
      users := known;
      UpdateAllRoutes();
    }

    method ApplyMeetDeviceOutputs(current: map<Source, DeviceId>)
      requires Keyed()
      modifies this`outputs, this`lanes, this`channels, this`nextChannel, this`claims, this`claimLog
      ensures View() == UpdateRoutes(old(View()).(env := old(EnvView()).(outputs := current)), order) && Keyed()
    {
      outputs := current;
      UpdateAllRoutes();
    }

    // ---- Correlation with the active speaker ----

    method ActiveCandidates() returns (candidates: set<DeviceId>)
      ensures candidates == Candidates(users, active)
    {
      candidates := {};
      for i := 0 to |active|
        invariant candidates ==
          set k | 0 <= k < i && Eligible(users, active[k]) :: CanonicalDevice(users, active[k].id)
      {
        var deviceId := CanonicalDevice(users, active[i].id);
        if deviceId != NO_DEVICE && !active[i].isSelf && !(deviceId in users && users[deviceId].isCurrentUser) {
          candidates := candidates + {deviceId};
        }
      }
    }

    method DropChallenge(src: Source)
      requires src in lanes
      modifies this`lanes
      ensures lanes == old(lanes)[src := ForgetChallenge(old(lanes[src]))]
    {
      lanes := lanes[src := lanes[src].(vote := None)];
      ClearRouteChallenge(src);
    }

    method BeginChallenge(src: Source, candidate: DeviceId)
      requires src in lanes
      modifies this`lanes
      ensures lanes == old(lanes)[src := OpenChallenge(old(lanes[src]), candidate)]
    {
      DropChallenge(src);
      lanes := lanes[src := lanes[src].(challengeDeviceId := candidate)];
    }

    /** Gives the route to the confirmed candidate, against whatever the protocol says. */
    method RebindToActive(src: Source, candidate: DeviceId)
      requires src in lanes && lanes[src].source == src
      modifies this`lanes, this`channels, this`nextChannel, this`claims, this`claimLog
      ensures src in lanes && lanes == old(lanes)[src := lanes[src]]
      ensures DeskView(src) == RebindRoute(EnvView(), old(DeskView(src)), candidate)
    {
      ghost var desk := DeskView(src);
      OverrideProtocol(src, candidate);
      AssignRouteDevice(src, candidate);
      ConfirmClaim(src, candidate);
      FinishRebind(src);
      ReboundBy(EnvView(), desk, candidate);
    }

    method OverrideProtocol(src: Source, candidate: DeviceId)
      requires src in lanes
      modifies this`lanes
      ensures lanes == old(lanes)[src := Overriding(EnvView(), old(DeskView(src)), candidate)]
    {
      var lane := lanes[src];
      var record := RebindRecord(candidate, now, lane.history.observations, claimLog);
      lanes := lanes[src := lane.(
        route := lane.route.(activityDeviceId := candidate,
                             overriddenProtocolRawDeviceId := lane.route.protocolRawDeviceId),
        history := lane.history.(rebinds := lane.history.rebinds + [record]))];
    }

    method FinishRebind(src: Source)
      requires src in lanes
      modifies this`lanes
      ensures lanes == old(lanes)[src := Announce(EnvView(), old(lanes[src]).(vote := None))]
    {
      lanes := lanes[src := lanes[src].(vote := None)];
      AnnounceRoute(src);
    }

    /** Counts a loud agreement, or lets a stale one expire, while the disputed audio is held. */
    method ChallengeOwner(src: Source, candidate: DeviceId, loud: bool) returns (decision: Decision)
      requires src in lanes && lanes[src].source == src
      modifies this`lanes, this`channels, this`nextChannel, this`claims, this`claimLog
      ensures src in lanes && lanes == old(lanes)[src := lanes[src]]
      ensures (DeskView(src), decision) == Challenge(EnvView(), old(DeskView(src)), candidate, loud)
    {
      if lanes[src].challengeDeviceId != candidate {
        BeginChallenge(src, candidate);
      }
      var previous := lanes[src].vote;
      if !loud {
        if previous.Some? && !IdentityVoteFresh(previous.value, now) {
          BeginChallenge(src, candidate);
        }
        return Hold;
      }
      var vote := NextIdentityVote(previous, candidate, now);
      lanes := lanes[src := lanes[src].(vote := Some(vote))];
      if !IdentityVoteReady(vote) {
        return Hold;
      }
      RebindToActive(src, candidate);
      return Rebind;
    }

    method ExpireOldClaim(deviceId: DeviceId)
      modifies this`claims
      ensures RegistryView() == ExpireClaim(EnvView(), old(RegistryView()), deviceId)
    {
      if deviceId in claims && now - claims[deviceId].lastAt > CLAIM_MS {
        claims := claims - {deviceId};
      }
    }

    method CorrelateCandidate(src: Source, sole: Option<DeviceId>, loud: bool, allowChallenge: bool) returns (decision: Decision)
      requires src in lanes && lanes[src].source == src
      modifies this`lanes, this`channels, this`nextChannel, this`claims, this`claimLog
      ensures src in lanes && lanes == old(lanes)[src := lanes[src]]
      ensures (DeskView(src), decision) == CorrelateWith(EnvView(), old(DeskView(src)), sole, loud, allowChallenge)
    {
      var route := lanes[src].route;
      var unnamed := route.deviceId == NO_DEVICE;
      var trusted := route.activityDeviceId != NO_DEVICE || !route.protocolStale;
      if sole.None? {
        DropChallenge(src);
        return if trusted then Send else Drop;
      }
      var candidate := sole.value;
      if candidate == route.deviceId {
        DropChallenge(src);
        if loud {
          ConfirmClaim(src, candidate);
        }
        return Send;
      }
      if !allowChallenge || (!unnamed && candidate !in users) {
        DropChallenge(src);
        return if unnamed || trusted then Send else Drop;
      }
      if candidate in claims && now - claims[candidate].lastAt <= CLAIM_MS && claims[candidate].source != src {
        DropChallenge(src);
        return if !unnamed && trusted then Send else Drop;
      }
      ExpireOldClaim(candidate);
      decision := ChallengeOwner(src, candidate, loud);
    }

    method CorrelateWithActiveSpeaker(src: Source, peak: real, allowChallenge: bool) returns (decision: Decision)
      requires src in lanes && lanes[src].source == src
      modifies this`lanes, this`channels, this`nextChannel, this`claims, this`claimLog
      ensures src in lanes && lanes == old(lanes)[src := lanes[src]]
      ensures (DeskView(src), decision) == Correlate(EnvView(), old(DeskView(src)), peak, allowChallenge)
    {
      var candidates := ActiveCandidates();
      var sole := TheOnly(candidates);
      var loud := peak >= LOUD_PEAK;
      lanes := lanes[src := Observe(Env(running, now, micOpen, active, users, outputs, entries), lanes[src], sole, loud)];
      decision := CorrelateCandidate(src, sole, loud, allowChallenge);
    }

    method FollowDecision(src: Source, e: EntryId, samples: seq<real>, decision: Decision)
      requires src in lanes
      modifies this`lanes
      ensures src in lanes && lanes == old(lanes)[src := lanes[src]]
      ensures lanes[src] == Follow(EnvView(), old(lanes[src]), e, samples, decision)
    {
      match decision {
        case Drop =>
        case Hold => HoldRoutePcm(src, e, samples);
        case Send => PushTrackProcessorPcm(src, e, samples);
        case Rebind =>
          FlushRouteChallenge(src);
          PushTrackProcessorPcm(src, e, samples);
      }
    }

    /** A decoded chunk of either path. */
    method DeliverPcm(src: Source, e: EntryId, samples: seq<real>, peak: real, allowChallenge: bool)
      requires src in lanes && lanes[src].source == src
      modifies this`lanes, this`channels, this`nextChannel, this`claims, this`claimLog
      ensures src in lanes && lanes == old(lanes)[src := lanes[src]]
      ensures DeskView(src) == Deliver(EnvView(), old(DeskView(src)), e, samples, peak, allowChallenge)
    {
      var decision := CorrelateWithActiveSpeaker(src, peak, allowChallenge);
      FollowDecision(src, e, samples, decision);
    }

    // ---- What the handlers do ----

    /** Brings the route of a routable source up to date as a step of the machine. */
    method OpenRoute(src: Source) returns (found: bool)
      requires Keyed()
      modifies this`lanes, this`order, this`channels, this`nextChannel, this`claims, this`claimLog
      ensures found == Routable(src)
      ensures View() == if found then WithRoute(old(View()), src) else old(View())
      ensures found ==> src in lanes && DeskView(src) == MeetState.RouteForSource(old(View()), src)
      ensures Keyed()
    {
      found := RouteForSource(src);
    }

    method DeliverStep(src: Source, e: EntryId, samples: seq<real>, peak: real, allowChallenge: bool)
      requires Keyed() && src in lanes
      modifies this`lanes, this`channels, this`nextChannel, this`claims, this`claimLog
      ensures View() == Put(old(View()), Deliver(EnvView(), old(DeskView(src)), e, samples, peak, allowChallenge))
      ensures Keyed()
    {
      R.DeliverKeepsSource(EnvView(), DeskView(src), e, samples, peak, allowChallenge);
      DeliverPcm(src, e, samples, peak, allowChallenge);
    }

    /** A frame of the native track processor. */
    method ReceiveNativePcm(e: EntryId, src: Source, samples: seq<real>, peak: real, isSelf: bool)
      requires Keyed()
      modifies this`lanes, this`order, this`channels, this`nextChannel, this`claims, this`claimLog
      ensures View() == ReceiveNative(old(View()), e, src, samples, peak, isSelf) && Keyed()
    {
      if !running {
        return;
      }
      var found := OpenRoute(src);
      if found && !isSelf {
        DeliverStep(src, e, samples, peak, true);
      }
    }

    /** An output of a tap's decoder that passed the decoder's own checks. */
    method ReceiveDecodedPcm(e: EntryId, src: Source, samples: seq<real>, peak: real, allowChallenge: bool)
      requires Keyed() && e in entries && src in lanes
      modifies this`lanes, this`channels, this`nextChannel, this`claims, this`claimLog
      ensures View() == ReceiveDecoded(old(View()), e, src, samples, peak, allowChallenge) && Keyed()
    {
      if entries[e].released || !running || !A.CanPublish(lanes[src].ledger, entries[e].receiver) {
        return;
      }
      DeliverStep(src, e, samples, peak, allowChallenge);
    }

    /** The decision of the encoded path about one frame of a route. */
    method DecideEncoded(src: Source, receiver: Receiver, audible: bool, candidate: bool, native: Option<EntryId>)
      requires src in lanes
      modifies this`lanes
      ensures lanes == old(lanes)[src := ReceiveFrame(EnvView(), old(lanes[src]), receiver, audible, candidate, native)]
    {
      var lane := lanes[src];
      var wasNative := A.StateOf(lane.ledger, receiver, now).owner == A.Native;
      var ledger := A.Decide(lane.ledger, receiver, audible, candidate, now);
      var buffers := lane.buffers;
      if candidate && wasNative && A.CanPublish(ledger, receiver) && native.Some? {
        buffers := buffers - {native.value};
      }
      lanes := lanes[src := lane.(ledger := ledger, buffers := buffers)];
    }

    method DecideStep(src: Source, receiver: Receiver, audible: bool, candidate: bool, native: Option<EntryId>)
      requires Keyed() && src in lanes
      modifies this`lanes
      ensures View() == Put(old(View()),
        Desk(RegistryView(), ReceiveFrame(EnvView(), old(lanes[src]), receiver, audible, candidate, native)))
    {
      DecideEncoded(src, receiver, audible, candidate, native);
    }

    method ObserveEncodedFrame(e: EntryId, src: Source, level: Option<real>, candidate: bool, native: Option<EntryId>, isSelf: bool)
      requires Keyed() && e in entries
      modifies this`lanes, this`order, this`channels, this`nextChannel, this`claims, this`claimLog
      ensures View() == ReceiveEncoded(old(View()), e, src, level, candidate, native, isSelf)
    {
      if !running {
        return;
      }
      var found := OpenRoute(src);
      if found && !isSelf {
        DecideStep(src, entries[e].receiver, level.Some? && level.value >= A.AUDIBLE_LEVEL, candidate, native);
      }
    }

    method ForgetClaims()
      modifies this`claims, this`claimLog
      ensures RegistryView() == WipeClaims(old(RegistryView()))
    {
      claims := map[];
      claimLog := claimLog + [Wiped];
    }

    /** Votes, arbitration and leases start over, and the buffers of some entries are gone. */
    method ForgetAllEvidence(dropped: set<EntryId>)
      modifies this`lanes
      ensures lanes == map src | src in old(lanes) :: WithoutBuffers(ForgetEvidence(old(lanes)[src]), dropped)
    {
      lanes := map src | src in lanes :: WithoutBuffers(ForgetEvidence(lanes[src]), dropped);
    }

    method CleanAllLanes(live: set<EntryId>)
      requires live == LiveEntries(EnvView())
      modifies this`lanes
      ensures lanes == map src | src in old(lanes) :: CleanedLane(EnvView(), old(lanes)[src])
    {
      lanes := map src | src in lanes :: WithoutBuffers(ForgetEvidence(DropHeldAudio(lanes[src])), live);
    }

    method StartMeetCapture()
      requires !running
      modifies this`running, this`lanes, this`claims, this`claimLog
      ensures View() == StartCapture(old(View()))
      ensures claims == map[] && lanes.Keys == old(lanes).Keys
      ensures forall src | src in lanes :: lanes[src].vote == None && FreeToClaim(lanes[src].ledger, now)
      ensures forall src | src in lanes :: lanes[src].pendingAudio == old(lanes)[src].pendingAudio
    {
      var taps := set e | e in entries && !entries[e].released && entries[e].path == A.Encoded;
      assert taps == LiveTaps(EnvView());
      running := true;
      ForgetClaims();
      ForgetAllEvidence(taps);
    }

    method CleanupMeetCapture()
      requires !running
      modifies this`lanes, this`claims, this`claimLog
      ensures View() == CleanupCapture(old(View()))
    {
      var live := set e | e in entries && !entries[e].released;
      assert live == LiveEntries(EnvView());
      CleanAllLanes(live);
      ForgetClaims();
    }

    method DropTap(id: EntryId, receiver: Receiver)
      modifies this`lanes
      ensures lanes == map src | src in old(lanes) :: WithoutTap(old(lanes)[src], id, receiver)
      ensures forall src | src in lanes :: id !in lanes[src].buffers && !A.CanPublish(lanes[src].ledger, receiver)
    {
      lanes := map src | src in lanes :: WithoutTap(lanes[src], id, receiver);
    }

    method MarkReleased(id: EntryId)
      requires id in entries
      modifies this`entries, this`lanes
      ensures View() == MeetState.ReleaseEntry(old(View()), id)
      ensures old(entries[id]).path == A.Encoded ==> forall src | src in lanes ::
                id !in lanes[src].buffers && !A.CanPublish(lanes[src].ledger, old(entries[id]).receiver)
    {
      var entry := entries[id];
      entries := entries[id := entry.(released := true)];
      if entry.path == A.Encoded {
        DropTap(id, entry.receiver);
      }
    }

    method AnnounceIfKnown(src: Source)
      modifies this`lanes
      ensures lanes == if src in old(lanes) then old(lanes)[src := Announce(EnvView(), old(lanes)[src])] else old(lanes)
    {
      if src in lanes {
        AnnounceRoute(src);
      }
    }

    method AnnounceAllRoutes()
      requires forall src | src in lanes :: src in order
      modifies this`lanes
      ensures lanes == map src | src in old(lanes) :: Announce(EnvView(), old(lanes)[src])
      ensures running ==> forall src | src in lanes && lanes[src].route.deviceId != NO_DEVICE :: lanes[src].pendingAudio == []
    {
      ghost var env, before := EnvView(), lanes;
      for i := 0 to |order|
        invariant lanes == AnnouncedIn(env, before, order[..i])
      {
        AnnouncedNext(env, before, order[..i], order[i]);
        assert order[..i + 1] == order[..i] + [order[i]];
        AnnounceIfKnown(order[i]);
      }
      assert order[..|order|] == order;
    }

    // ---- The handlers, each one step ----

    ghost method Took(step: Step, before: State)
      requires before == Run(INITIAL, steps) && View() == Apply(before, step)
      modifies this`steps
      ensures Valid() && steps == old(steps) + [step]
      ensures Extends(before.registry.channels, channels)
    {
      RunStep(INITIAL, steps, step);
      RunChannels(INITIAL, steps);
      StepChannels(before, step);
      steps := steps + [step];
      RunKeepsPromises(steps);
    }

    method ReadClock(to: Time)
      requires Valid() && now <= to
      modifies this
      ensures Valid() && steps == old(steps) + [Advance(to)]
    {
      ghost var before := View();
      now := to;
      Took(Advance(to), before);
    }

    method SwitchMicrophone(open: bool)
      requires Valid()
      modifies this
      ensures Valid() && steps == old(steps) + [SetMicOpen(open)]
    {
      ghost var before := View();
      micOpen := open;
      Took(SetMicOpen(open), before);
    }

    method ShowActive(people: seq<Active>)
      requires Valid()
      modifies this
      ensures Valid() && steps == old(steps) + [SetActive(people)]
    {
      ghost var before := View();
      active := people;
      Took(SetActive(people), before);
    }

    /** Every device that has a channel keeps it. */
    method OnMeetUsers(known: map<DeviceId, User>)
      requires Valid() && NO_DEVICE !in known
      modifies this
      ensures Valid() && steps == old(steps) + [UsersChanged(known)]
      ensures Extends(old(channels), channels)
    {
      ghost var before := View();
      ApplyMeetUsers(known);
      Took(UsersChanged(known), before);
    }

    method OnMeetDeviceOutputs(current: map<Source, DeviceId>)
      requires Valid()
      modifies this
      ensures Valid() && steps == old(steps) + [OutputsChanged(current)]
      ensures Extends(old(channels), channels)
    {
      ghost var before := View();
      ApplyMeetDeviceOutputs(current);
      Took(OutputsChanged(current), before);
    }

    /** A track outside Meet's routes takes the next channel. */
    method TakeChannel() returns (channel: Channel)
      requires Valid()
      modifies this
      ensures Valid() && steps == old(steps) + [OtherChannel]
      ensures forall d | d in channels :: channels[d] != channel
      ensures forall src | src in lanes :: lanes[src].route.channel != channel
    {
      ghost var before := View();
      channel := nextChannel;
      nextChannel := nextChannel + 1;
      Took(OtherChannel, before);
    }

    method AttachEntry(id: EntryId, attached: Entry)
      requires Valid() && id !in entries && !attached.released
      modifies this
      ensures Valid() && steps == old(steps) + [Attach(id, attached)]
    {
      ghost var before := View();
      entries := entries[id := attached];
      Took(Attach(id, attached), before);
    }

    method SwapReceiver(id: EntryId, receiver: Receiver)
      requires Valid() && id in entries && entries[id].path == A.Native
      modifies this
      ensures Valid() && steps == old(steps) + [ReplaceReceiver(id, receiver)]
    {
      ghost var before := View();
      entries := entries[id := entries[id].(receiver := receiver)];
      Took(ReplaceReceiver(id, receiver), before);
    }

    /** A released tap leaves no partial block and no say about any source. */
    method ReleaseTrack(id: EntryId)
      requires Valid() && id in entries && !entries[id].released
      modifies this
      ensures Valid() && steps == old(steps) + [Release(id)]
      ensures old(entries[id]).path == A.Encoded ==> forall src | src in lanes ::
                id !in lanes[src].buffers && !A.CanPublish(lanes[src].ledger, old(entries[id]).receiver)
    {
      ghost var before := View();
      MarkReleased(id);
      Took(Release(id), before);
    }

    /** No sample decoded before the reset is framed with one decoded after it. */
    method ResetTapDecoder(id: EntryId)
      requires Valid() && id in entries && entries[id].path == A.Encoded
      modifies this
      ensures Valid() && steps == old(steps) + [ResetDecoder(id)]
      ensures forall src | src in lanes :: id !in lanes[src].buffers
    {
      ghost var before := View();
      lanes := map src | src in lanes :: WithoutBuffers(lanes[src], {id});
      Took(ResetDecoder(id), before);
    }

    method OnNativePcm(e: EntryId, src: Source, samples: seq<real>, peak: real, isSelf: bool)
      requires Valid() && e in entries && entries[e].path == A.Native
      modifies this
      ensures Valid() && steps == old(steps) + [NativePcm(e, src, samples, peak, isSelf)]
      ensures Extends(old(channels), channels)
    {
      ghost var before := View();
      ReceiveNativePcm(e, src, samples, peak, isSelf);
      Took(NativePcm(e, src, samples, peak, isSelf), before);
    }

    method OnDecodedPcm(e: EntryId, src: Source, samples: seq<real>, peak: real, allowChallenge: bool)
      requires Valid() && e in entries && entries[e].path == A.Encoded && src in lanes
      modifies this
      ensures Valid() && steps == old(steps) + [EncodedPcm(e, src, samples, peak, allowChallenge)]
      ensures Extends(old(channels), channels)
    {
      ghost var before := View();
      ReceiveDecodedPcm(e, src, samples, peak, allowChallenge);
      DecodedIsStep(before, e, src, samples, peak, allowChallenge);
      Took(EncodedPcm(e, src, samples, peak, allowChallenge), before);
    }

    method OnEncodedFrame(e: EntryId, src: Source, level: Option<real>, candidate: bool, native: Option<EntryId>, isSelf: bool)
      requires Valid() && LiveTap(EnvView(), e)
      modifies this
      ensures Valid() && steps == old(steps) + [EncodedFrame(e, src, level, candidate, native, isSelf)]
      ensures Extends(old(channels), channels)
    {
      ghost var before := View();
      ObserveEncodedFrame(e, src, level, candidate, native, isSelf);
      FrameIsStep(before, e, src, level, candidate, native, isSelf);
      Took(EncodedFrame(e, src, level, candidate, native, isSelf), before);
    }

    /** No claim, lease or vote outlives a start; what waits for an owner does. */
    method OnStart()
      requires Valid() && !running
      modifies this
      ensures Valid() && steps == old(steps) + [Start]
      ensures claims == map[] && lanes.Keys == old(lanes).Keys
      ensures forall src | src in lanes :: lanes[src].vote == None && FreeToClaim(lanes[src].ledger, now)
      ensures forall src | src in lanes :: lanes[src].pendingAudio == old(lanes)[src].pendingAudio
      ensures forall src | src in lanes :: lanes[src].buffers == NotOfTaps(entries, old(lanes)[src].buffers)
    {
      ghost var before := View();
      forall src | src in lanes ensures StartedLane(EnvView(), lanes[src]).buffers == NotOfTaps(entries, lanes[src].buffers) {
        StartedBuffers(EnvView(), lanes[src]);
      }
      StartMeetCapture();
      Took(Start, before);
    }

    /** The audio graph is ready: routes whose owner came to be known are announced. */
    method OnGraphReady()
      requires Valid()
      modifies this
      ensures Valid() && steps == old(steps) + [AnnounceAll]
      ensures running ==> forall src | src in lanes && lanes[src].route.deviceId != NO_DEVICE :: lanes[src].pendingAudio == []
    {
      ghost var before := View();
      G.RunLists(steps);
      AnnounceIsStep(before);
      AnnounceAllRoutes();
      Took(AnnounceAll, before);
    }

    /** A stop, or a start that was superseded, takes effect at once. */
    method OnHalt()
      requires Valid()
      modifies this
      ensures Valid() && steps == old(steps) + [Halt] && !running
    {
      ghost var before := View();
      running := false;
      Took(Halt, before);
    }

    /** Nothing of this recording is left for the next one. */
    method OnCleanup()
      requires Valid() && !running
      modifies this
      ensures Valid() && steps == old(steps) + [Cleanup]
      ensures NothingWaits(View()) && claims == map[]
      ensures forall src | src in lanes :: lanes[src].challengeAudio == [] && lanes[src].vote == None
      ensures forall src, e | src in lanes && e in lanes[src].buffers :: !Live(EnvView(), e)
    {
      ghost var before := View();
      CleanupMeetCapture();
      Took(Cleanup, before);
    }
  }
}
