/**
 Whole runs of the routing machine: every rebind is warranted, every challenge buffer is
 the longest suffix of what was held, and every ledger keeps the arbitration rules.
 */
module MeetRuns {
  import opened Wrappers
  import opened MeetState
  import opened MeetFacts
  import opened MeetEvidence
  import opened MeetHolding
  import opened MeetPaths
  import opened MeetReplay
  import A = PcmArbitration

  ghost predicate LaneInv(env: Env, lane: Lane) {
    EvidenceOk(lane) && KeepsLongest(lane) && PathsOk(env, lane) && ChallengeOk(lane)
  }

  ghost predicate DeskInv(env: Env, desk: Desk) {
    LaneInv(env, desk.lane) && ClaimsOk(desk.registry, env.now)
  }

  ghost predicate StateInv(s: State) {
    && ClaimsOk(s.registry, s.env.now)
    && forall src | src in s.lanes :: s.lanes[src].source == src && LaneInv(s.env, s.lanes[src])
  }

  // ---- One lane ----

  lemma UpdateInv(env: Env, desk: Desk)
    requires DeskInv(env, desk)
    ensures DeskInv(env, UpdateRoute(env, desk)) && UpdateRoute(env, desk).lane.source == desk.lane.source
  {
    UpdateEvidence(env, desk);
    UpdateHolding(env, desk);
    UpdatePaths(env, desk);
    UpdateReplays(env, desk);
    UpdateRouteResult(env, desk);
  }

  lemma DeliverInv(env: Env, desk: Desk, e: EntryId, samples: seq<real>, peak: real, allowChallenge: bool)
    requires DeskInv(env, desk) && e in env.entries
    requires env.entries[e].path == A.Encoded ==> A.CanPublish(desk.lane.ledger, env.entries[e].receiver)
    ensures var desk' := Deliver(env, desk, e, samples, peak, allowChallenge);
            DeskInv(env, desk') && desk'.lane.source == desk.lane.source
  {
    DeliverEvidence(env, desk, e, samples, peak, allowChallenge);
    DeliverHolding(env, desk, e, samples, peak, allowChallenge);
    DeliverPaths(env, desk, e, samples, peak, allowChallenge);
    DeliverReplays(env, desk, e, samples, peak, allowChallenge);
    DeliverKeepsSource(env, desk, e, samples, peak, allowChallenge);
  }

  lemma DeliverKeepsSource(env: Env, desk: Desk, e: EntryId, samples: seq<real>, peak: real, allowChallenge: bool)
    ensures Deliver(env, desk, e, samples, peak, allowChallenge).lane.source == desk.lane.source
  {
    CorrelateResult(env, desk, peak, allowChallenge);
    var lane := Correlate(env, desk, peak, allowChallenge).0.lane;
    FlushKeeps(env, lane);
    PushKeeps(env, lane, e, samples);
    PushKeeps(env, FlushChallenge(env, lane), e, samples);
  }

  lemma CreateInv(env: Env, reg: Registry, src: Source)
    requires ClaimsOk(reg, env.now)
    ensures DeskInv(env, CreateRoute(env, reg, src))
  {
    var desk := CreateRoute(env, reg, src);
    SameClaimsOk(reg, desk.registry, env.now);
    assert LongestFrom([], 0);
    assert A.LedgerOk(A.EMPTY_LEDGER, env.now);
  }

  // ---- The machine ----

  lemma PutInv(s: State, desk: Desk)
    requires StateInv(s) && DeskInv(s.env, desk)
    ensures StateInv(Put(s, desk))
  {
  }

  lemma RouteForSourceInv(s: State, src: Source)
    requires StateInv(s)
    ensures DeskInv(s.env, RouteForSource(s, src)) && RouteForSource(s, src).lane.source == src
  {
    if src in s.lanes {
      UpdateInv(s.env, Desk(s.registry, s.lanes[src]));
      var updated := UpdateRoute(s.env, Desk(s.registry, s.lanes[src]));
      AnnounceInv(s.env, updated.lane);
    } else {
      CreateInv(s.env, s.registry, src);
    }
  }

  lemma AnnounceInv(env: Env, lane: Lane)
    requires LaneInv(env, lane)
    ensures LaneInv(env, Announce(env, lane))
  {
  }

  lemma WithRouteInv(s: State, src: Source)
    requires StateInv(s)
    ensures StateInv(WithRoute(s, src)) && src in WithRoute(s, src).lanes && WithRoute(s, src).env == s.env
  {
    RouteForSourceInv(s, src);
    PutFirstInv(s, src, RouteForSource(s, src));
  }

  lemma PutFirstInv(s: State, src: Source, desk: Desk)
    requires StateInv(s) && DeskInv(s.env, desk) && desk.lane.source == src
    ensures var s' := Put(if src in s.lanes then s else s.(order := s.order + [src]), desk);
            StateInv(s') && src in s'.lanes && s'.env == s.env
  {
  }

  lemma {:induction false} UpdateRoutesInv(s: State, order: seq<Source>)
    requires StateInv(s)
    ensures StateInv(UpdateRoutes(s, order))
    decreases |order|
  {
    if order != [] {
      if order[0] in s.lanes {
        var desk := Desk(s.registry, s.lanes[order[0]]);
        UpdateInv(s.env, desk);
        PutInv(s, UpdateRoute(s.env, desk));
        UpdateRoutesInv(Put(s, UpdateRoute(s.env, desk)), order[1..]);
      } else {
        UpdateRoutesInv(s, order[1..]);
      }
    }
  }

  /** Time passes, entries come and go: what was held stays accounted for. */
  lemma EnvironmentInv(s: State, env: Env)
    requires StateInv(s) && s.env.now <= env.now
    requires forall e | e in s.env.entries ::
               && e in env.entries && env.entries[e].path == s.env.entries[e].path
               && (env.entries[e].path == A.Encoded ==> env.entries[e].receiver == s.env.entries[e].receiver)
    ensures StateInv(s.(env := env))
  {
    ClaimsAge(s.registry, s.env.now, env.now);
    forall src | src in s.lanes ensures LaneInv(env, s.lanes[src]) {
      var lane := s.lanes[src];
      assert LaneInv(s.env, lane);
      A.TimePasses(lane.ledger, s.env.now, env.now);
      forall c | c in lane.challengeAudio ensures ChunkOk(env, lane.ledger, c) {
        assert ChunkOk(s.env, lane.ledger, c);
      }
    }
  }

  lemma ForgetEvidenceInv(env: Env, lane: Lane, dropped: set<EntryId>)
    requires LaneInv(env, lane)
    ensures LaneInv(env, WithoutBuffers(ForgetEvidence(lane), dropped))
  {
    var lane' := WithoutBuffers(ForgetEvidence(lane), dropped);
    A.ForgetAllOk(lane.ledger, env.now);
    forall c | c in lane'.challengeAudio ensures ChunkOk(env, lane'.ledger, c) {
      assert ChunkOk(env, lane.ledger, c);
      if env.entries[c.entry].path == A.Encoded {
        A.JustifiedGrows(lane.ledger.log, A.Forgotten({}), env.entries[c.entry].receiver);
      }
    }
  }

  lemma DropHeldInv(env: Env, lane: Lane)
    requires LaneInv(env, lane)
    ensures LaneInv(env, DropHeldAudio(lane))
  {
    SameOrClearedKeeps(lane, DropHeldAudio(lane));
    DropHeldReplays(lane);
    DropHeldEvidence(lane);
  }

  lemma DropHeldReplays(lane: Lane)
    requires ChallengeOk(lane)
    ensures ChallengeOk(DropHeldAudio(lane))
  {
  }

  lemma DropHeldEvidence(lane: Lane)
    requires EvidenceOk(lane)
    ensures EvidenceOk(DropHeldAudio(lane))
  {
  }

  lemma StartInv(s: State)
    requires StateInv(s)
    ensures StateInv(StartCapture(s))
  {
    EnvironmentInv(s, s.env.(running := true));
    WipeOk(s.registry, s.env.now);
    var s' := StartCapture(s);
    forall src | src in s'.lanes ensures s'.lanes[src].source == src && LaneInv(s'.env, s'.lanes[src]) {
      ForgetEvidenceInv(s'.env, s.lanes[src], LiveTaps(s.env));
    }
  }

  lemma CleanupInv(s: State)
    requires StateInv(s)
    ensures StateInv(CleanupCapture(s))
  {
    WipeOk(s.registry, s.env.now);
    var s' := CleanupCapture(s);
    forall src | src in s'.lanes ensures s'.lanes[src].source == src && LaneInv(s'.env, s'.lanes[src]) {
      DropHeldInv(s.env, s.lanes[src]);
      ForgetEvidenceInv(s.env, DropHeldAudio(s.lanes[src]), LiveEntries(s.env));
    }
  }

  lemma WithoutTapInv(env: Env, lane: Lane, id: EntryId, receiver: Receiver)
    requires LaneInv(env, lane)
    ensures LaneInv(env, WithoutTap(lane, id, receiver)) && LaneInv(env, WithoutBuffers(lane, {id}))
  {
    var lane' := WithoutTap(lane, id, receiver);
    A.ForgetReceiverOk(lane.ledger, receiver, env.now);
    forall c | c in lane'.challengeAudio ensures ChunkOk(env, lane'.ledger, c) {
      assert ChunkOk(env, lane.ledger, c);
      if env.entries[c.entry].path == A.Encoded {
        A.JustifiedGrows(lane.ledger.log, A.Released(receiver), env.entries[c.entry].receiver);
      }
    }
  }

  lemma ReleaseInv(s: State, id: EntryId)
    requires StateInv(s) && Live(s.env, id)
    ensures StateInv(ReleaseEntry(s, id))
  {
    var entry := s.env.entries[id];
    var off := s.(env := s.env.(entries := s.env.entries[id := entry.(released := true)]));
    EnvironmentInv(s, off.env);
    var s' := ReleaseEntry(s, id);
    forall src | src in s'.lanes ensures s'.lanes[src].source == src && LaneInv(s'.env, s'.lanes[src]) {
      WithoutTapInv(off.env, off.lanes[src], id, entry.receiver);
    }
  }

  lemma ResetDecoderInv(s: State, id: EntryId)
    requires StateInv(s)
    ensures StateInv(s.(lanes := map src | src in s.lanes :: WithoutBuffers(s.lanes[src], {id})))
  {
    forall src | src in s.lanes ensures LaneInv(s.env, WithoutBuffers(s.lanes[src], {id})) {
      WithoutTapInv(s.env, s.lanes[src], id, 0);
    }
  }

  lemma AnnounceAllInv(s: State)
    requires StateInv(s)
    ensures StateInv(s.(lanes := map src | src in s.lanes :: Announce(s.env, s.lanes[src])))
  {
    forall src | src in s.lanes ensures LaneInv(s.env, Announce(s.env, s.lanes[src])) {
      AnnounceInv(s.env, s.lanes[src]);
    }
  }

  lemma DeliverPutInv(s: State, desk: Desk, e: EntryId, samples: seq<real>, peak: real, allowChallenge: bool)
    requires StateInv(s) && DeskInv(s.env, desk) && e in s.env.entries
    requires s.env.entries[e].path == A.Encoded ==> A.CanPublish(desk.lane.ledger, s.env.entries[e].receiver)
    ensures StateInv(Put(s, Deliver(s.env, desk, e, samples, peak, allowChallenge)))
  {
    DeliverInv(s.env, desk, e, samples, peak, allowChallenge);
    PutInv(s, Deliver(s.env, desk, e, samples, peak, allowChallenge));
  }

  lemma DeliverStepInv(s: State, src: Source, e: EntryId, samples: seq<real>, peak: real, allowChallenge: bool)
    requires StateInv(s) && src in s.lanes && e in s.env.entries
    requires s.env.entries[e].path == A.Encoded ==> A.CanPublish(s.lanes[src].ledger, s.env.entries[e].receiver)
    ensures StateInv(Put(s, Deliver(s.env, Desk(s.registry, s.lanes[src]), e, samples, peak, allowChallenge)))
  {
    DeliverPutInv(s, Desk(s.registry, s.lanes[src]), e, samples, peak, allowChallenge);
  }

  lemma FrameInv(env: Env, lane: Lane, receiver: Receiver, audible: bool, candidate: bool, native: Option<EntryId>)
    requires LaneInv(env, lane)
    ensures LaneInv(env, ReceiveFrame(env, lane, receiver, audible, candidate, native))
  {
    FramePaths(env, lane, receiver, audible, candidate, native);
  }

  lemma FramePutInv(s: State, lane: Lane, receiver: Receiver, audible: bool, candidate: bool, native: Option<EntryId>)
    requires StateInv(s) && LaneInv(s.env, lane)
    ensures StateInv(Put(s, Desk(s.registry, ReceiveFrame(s.env, lane, receiver, audible, candidate, native))))
  {
    FrameInv(s.env, lane, receiver, audible, candidate, native);
    PutInv(s, Desk(s.registry, ReceiveFrame(s.env, lane, receiver, audible, candidate, native)));
  }

  lemma QuietStepInv(s: State, step: Step)
    requires StateInv(s) && Enabled(s, step)
    requires step.Advance? || step.SetMicOpen? || step.SetActive? || step.Attach? || step.ReplaceReceiver? || step.Halt?
    ensures StateInv(Apply(s, step))
  {
    EnvironmentInv(s, Apply(s, step).env);
  }

  lemma OtherChannelInv(s: State)
    requires StateInv(s)
    ensures StateInv(Apply(s, OtherChannel))
  {
    SameClaimsOk(s.registry, Apply(s, OtherChannel).registry, s.env.now);
  }

  lemma ProtocolStepInv(s: State, env: Env)
    requires StateInv(s) && env.now == s.env.now && env.entries == s.env.entries
    ensures StateInv(UpdateRoutes(s.(env := env), s.order))
  {
    EnvironmentInv(s, env);
    UpdateRoutesInv(s.(env := env), s.order);
  }

  lemma ReceiveNativeInv(s: State, e: EntryId, src: Source, samples: seq<real>, peak: real, isSelf: bool)
    requires StateInv(s) && e in s.env.entries && s.env.entries[e].path == A.Native
    ensures StateInv(ReceiveNative(s, e, src, samples, peak, isSelf))
  {
    if s.env.running && Routable(src) {
      WithRouteInv(s, src);
      RouteForSourceInv(s, src);
      DeliverPutInv(WithRoute(s, src), RouteForSource(s, src), e, samples, peak, true);
    }
  }

  lemma ReceiveEncodedInv(s: State, e: EntryId, src: Source, level: Option<real>, candidate: bool,
                          native: Option<EntryId>, isSelf: bool)
    requires StateInv(s) && e in s.env.entries
    ensures StateInv(ReceiveEncoded(s, e, src, level, candidate, native, isSelf))
  {
    if s.env.running && Routable(src) {
      WithRouteInv(s, src);
      RouteForSourceInv(s, src);
      FramePutInv(WithRoute(s, src), RouteForSource(s, src).lane, s.env.entries[e].receiver,
        level.Some? && level.value >= A.AUDIBLE_LEVEL, candidate, native);
    }
  }

  lemma StepInv(s: State, step: Step)
    requires StateInv(s)
    ensures StateInv(Apply(s, step))
  {
    if Enabled(s, step) {
      match step
      case UsersChanged(known) => ProtocolStepInv(s, s.env.(users := known));
      case OutputsChanged(current) => ProtocolStepInv(s, s.env.(outputs := current));
      case OtherChannel => OtherChannelInv(s);
      case Release(id) => ReleaseInv(s, id);
      case ResetDecoder(id) => ResetDecoderInv(s, id);
      case NativePcm(id, source, samples, peak, isSelf) => ReceiveNativeInv(s, id, source, samples, peak, isSelf);
      case EncodedFrame(id, source, level, candidate, native, isSelf) =>
        ReceiveEncodedInv(s, id, source, level, candidate, native, isSelf);
      case EncodedPcm(id, source, samples, peak, allowChallenge) =>
        if A.CanPublish(s.lanes[source].ledger, s.env.entries[id].receiver) {
          DeliverStepInv(s, source, id, samples, peak, allowChallenge);
        }
      case Start => StartInv(s);
      case AnnounceAll => AnnounceAllInv(s);
      case Cleanup => CleanupInv(s);
      case _ => QuietStepInv(s, step);
    }
  }

  lemma {:induction false} RunInv(steps: seq<Step>)
    ensures StateInv(Run(INITIAL, steps))
    decreases |steps|
  {
    if steps == [] {
      assert ClaimsOk(INITIAL.registry, INITIAL.env.now);
    } else {
      RunInv(steps[..|steps| - 1]);
      StepInv(Run(INITIAL, steps[..|steps| - 1]), steps[|steps| - 1]);
    }
  }

  // ---- Main results ----

  /** Over every run, an activity rebind ends a sustained, exclusive, loud run and overrides no standing claim. */
  lemma EveryRebindIsWarranted(steps: seq<Step>, src: Source, r: RebindRecord)
    requires src in Run(INITIAL, steps).lanes && r in Run(INITIAL, steps).lanes[src].history.rebinds
    ensures Warranted(src, r)
  {
    RunInv(steps);
  }

  /** Over every run, the challenge buffer is the longest suffix of at most 16000 samples held since the last clear. */
  lemma ChallengeIsLongestSuffix(steps: seq<Step>, src: Source)
    requires src in Run(INITIAL, steps).lanes
    ensures KeepsLongest(Run(INITIAL, steps).lanes[src])
  {
    RunInv(steps);
  }

  /** Over every run, what the challenge holds was held while the challenger was the only candidate. */
  lemma ChallengeIsTheChallengers(steps: seq<Step>, src: Source)
    requires src in Run(INITIAL, steps).lanes && Run(INITIAL, steps).lanes[src].challengeAudio != []
    ensures var lane := Run(INITIAL, steps).lanes[src];
            && lane.challengeDeviceId != NO_DEVICE && lane.challengeDeviceId != lane.route.deviceId
            && HeldUnder(lane.history.observations, |lane.challengeAudio|, lane.challengeDeviceId)
  {
    RunInv(steps);
  }

  /** Over every run, held audio is replayed only once the route belongs to the challenger it was held for. */
  lemma ReplaysGoToTheChallenger(steps: seq<Step>, src: Source, p: Replay)
    requires src in Run(INITIAL, steps).lanes && p in Run(INITIAL, steps).lanes[src].history.replays
    ensures ReplayOk(p)
  {
    RunInv(steps);
  }

  /**
   After every run, an update replays what is held exactly if the challenger becomes the
   owner; with any other new owner it is discarded.
   */
  lemma HeldIsReplayedExactly(steps: seq<Step>, src: Source, env: Env)
    requires src in Run(INITIAL, steps).lanes
    ensures var s := Run(INITIAL, steps);
            ReplayedToChallenger(s.lanes[src], UpdateRoute(env, Desk(s.registry, s.lanes[src])).lane)
  {
    RunInv(steps);
    UpdateReplaysExactly(env, Desk(Run(INITIAL, steps).registry, Run(INITIAL, steps).lanes[src]));
  }

  /** Over every run, the log of accepted blocks keeps the stall and lease rules, and switches are counted. */
  lemma EveryLedgerKeepsTheRules(steps: seq<Step>, src: Source)
    requires src in Run(INITIAL, steps).lanes
    ensures var l := Run(INITIAL, steps).lanes[src].ledger;
            && A.TimedBy(l.log, Run(INITIAL, steps).env.now)
            && A.EncodedBlocksJustified(l.log)
            && A.BlocksSpaced(l.log)
            && forall r | r in l.states :: l.states[r].switches == A.Changes(l.states[r].owners)
  {
    RunInv(steps);
    var l := Run(INITIAL, steps).lanes[src].ledger;
    forall r | r in l.states ensures l.states[r].switches == A.Changes(l.states[r].owners) {
      assert A.OwnershipOk(l.log, r, l.states[r]);
    }
  }

  /** Over every run, the encoded path owns a source exactly if the log of the receiver hands it over. */
  lemma EncodedOwnerExactly(steps: seq<Step>, src: Source, r: Receiver)
    requires src in Run(INITIAL, steps).lanes
    ensures var l := Run(INITIAL, steps).lanes[src].ledger;
            A.CanPublish(l, r) <==> A.HandedOver(A.Episode(l.log, r), r)
  {
    RunInv(steps);
    A.OwnsExactly(Run(INITIAL, steps).lanes[src].ledger, Run(INITIAL, steps).env.now, r);
  }

  lemma FrameIsLogged(s: State, id: EntryId, src: Source, level: Option<real>, candidate: bool, native: Option<EntryId>)
    requires StateInv(s) && s.env.running && Routable(src) && LiveTap(s.env, id)
    ensures var s', r := Apply(s, EncodedFrame(id, src, level, candidate, native, false)), s.env.entries[id].receiver;
            && src in s'.lanes && s'.env == s.env && s'.lanes[src].ledger.log != []
            && var log := s'.lanes[src].ledger.log;
               log[|log| - 1] == A.Frame(r, s.env.now, level.Some? && level.value >= A.AUDIBLE_LEVEL, candidate)
  {
    RouteForSourceInv(s, src);
    FrameLane(s, id, src, level, candidate, native);
    FrameGoesLast(s.env, RouteForSource(s, src).lane, s.env.entries[id].receiver,
      level.Some? && level.value >= A.AUDIBLE_LEVEL, candidate, native);
  }

  lemma FrameGoesLast(env: Env, lane: Lane, r: Receiver, audible: bool, candidate: bool, native: Option<EntryId>)
    ensures var log := ReceiveFrame(env, lane, r, audible, candidate, native).ledger.log;
            log != [] && log[|log| - 1] == A.Frame(r, env.now, audible, candidate)
    ensures ReceiveFrame(env, lane, r, audible, candidate, native).source == lane.source
  {
  }

  /** The last frame of `ep` ends 1500 ms of being heard without a gap and without a native block. */
  predicate EndsStall(ep: seq<A.Event>, r: Receiver) {
    ep != [] && A.Heard(ep[|ep| - 1], r) && A.StallsAt(ep, r, |ep| - 1)
  }

  /**
   After every run, a frame of a live tap hands the source over exactly if it is of no native
   candidate, ends a stall, or the source was handed over since the last native block already.
   */
  lemma FrameHandsOverExactly(steps: seq<Step>, id: EntryId, src: Source, level: Option<real>, candidate: bool,
                              native: Option<EntryId>)
    requires var s := Run(INITIAL, steps); s.env.running && Routable(src) && LiveTap(s.env, id)
    ensures var s := Run(INITIAL, steps);
            var s', r := Apply(s, EncodedFrame(id, src, level, candidate, native, false)), s.env.entries[id].receiver;
            && src in s'.lanes
            && var l, ep := s'.lanes[src].ledger, A.Episode(s'.lanes[src].ledger.log, r);
               && ep != []
               && ep[|ep| - 1] == A.Frame(r, s.env.now, level.Some? && level.value >= A.AUDIBLE_LEVEL, candidate)
               && (A.CanPublish(l, r) <==> !candidate || EndsStall(ep, r) || A.HandedOver(ep[..|ep| - 1], r))
  {
    var s := Run(INITIAL, steps);
    var step, r := EncodedFrame(id, src, level, candidate, native, false), s.env.entries[id].receiver;
    RunInv(steps);
    StepInv(s, step);
    FrameIsLogged(s, id, src, level, candidate, native);
    var l := Apply(s, step).lanes[src].ledger;
    A.OwnsExactly(l, s.env.now, r);
    LastFrameExactly(l.log, r, candidate);
  }

  /**
   After every run, the frame of a native candidate that hands the source over drops what
   the native path had not framed yet; any other frame leaves all partial blocks alone.
   */
  lemma FrameDropsExactly(steps: seq<Step>, id: EntryId, src: Source, level: Option<real>, candidate: bool,
                          native: Option<EntryId>)
    requires var s := Run(INITIAL, steps); s.env.running && Routable(src) && LiveTap(s.env, id)
    ensures var s := Run(INITIAL, steps);
            var s', r := Apply(s, EncodedFrame(id, src, level, candidate, native, false)), s.env.entries[id].receiver;
            && src in s'.lanes
            && var lane, lane' := RouteForSource(s, src).lane, s'.lanes[src];
               var taken := A.HandedOver(A.Episode(lane'.ledger.log, r), r) && !A.HandedOver(A.Episode(lane.ledger.log, r), r);
               && lane' == lane.(ledger := lane'.ledger, buffers := lane'.buffers)
               && lane'.buffers == if candidate && taken && native.Some? then lane.buffers - {native.value} else lane.buffers
  {
    var s, r := Run(INITIAL, steps), Run(INITIAL, steps).env.entries[id].receiver;
    var audible := level.Some? && level.value >= A.AUDIBLE_LEVEL;
    RunInv(steps);
    StepInv(s, EncodedFrame(id, src, level, candidate, native, false));
    FrameLane(s, id, src, level, candidate, native);
    RouteForSourceInv(s, src);
    FrameDrops(s.env, RouteForSource(s, src).lane, r, audible, candidate, native);
  }

  lemma FrameLane(s: State, id: EntryId, src: Source, level: Option<real>, candidate: bool, native: Option<EntryId>)
    requires StateInv(s) && s.env.running && Routable(src) && LiveTap(s.env, id)
    ensures var s' := Apply(s, EncodedFrame(id, src, level, candidate, native, false));
            && src in s'.lanes && s'.env == s.env
            && s'.lanes[src] == ReceiveFrame(s.env, RouteForSource(s, src).lane, s.env.entries[id].receiver,
                                             level.Some? && level.value >= A.AUDIBLE_LEVEL, candidate, native)
  {
    RouteForSourceInv(s, src);
    FrameIsStep(s, id, src, level, candidate, native, false);
  }

  lemma FrameDrops(env: Env, lane: Lane, r: Receiver, audible: bool, candidate: bool, native: Option<EntryId>)
    requires A.LedgerOk(lane.ledger, env.now)
    requires A.LedgerOk(ReceiveFrame(env, lane, r, audible, candidate, native).ledger, env.now)
    ensures var lane' := ReceiveFrame(env, lane, r, audible, candidate, native);
            var taken := A.HandedOver(A.Episode(lane'.ledger.log, r), r) && !A.HandedOver(A.Episode(lane.ledger.log, r), r);
            && lane' == lane.(ledger := lane'.ledger, buffers := lane'.buffers)
            && lane'.buffers == if candidate && taken && native.Some? then lane.buffers - {native.value} else lane.buffers
  {
    A.OwnsExactly(lane.ledger, env.now, r);
    A.OwnsExactly(ReceiveFrame(env, lane, r, audible, candidate, native).ledger, env.now, r);
    TakenDrops(env, lane, r, audible, candidate, native);
  }

  lemma TakenDrops(env: Env, lane: Lane, r: Receiver, audible: bool, candidate: bool, native: Option<EntryId>)
    ensures var lane' := ReceiveFrame(env, lane, r, audible, candidate, native);
            var taken := A.CanPublish(lane'.ledger, r) && !A.CanPublish(lane.ledger, r);
            && lane' == lane.(ledger := lane'.ledger, buffers := lane'.buffers)
            && lane'.buffers == if candidate && taken && native.Some? then lane.buffers - {native.value} else lane.buffers
  {
  }

  lemma LastFrameExactly(log: seq<A.Event>, r: Receiver, candidate: bool)
    requires log != [] && A.IsFrameOf(log[|log| - 1], r) && log[|log| - 1].candidate == candidate
    ensures var ep := A.Episode(log, r);
            && ep != [] && ep[|ep| - 1] == log[|log| - 1]
            && (A.HandedOver(ep, r) <==> !candidate || EndsStall(ep, r) || A.HandedOver(ep[..|ep| - 1], r))
  {
    var ep := A.Episode(log, r);
    assert ep == A.Episode(log[..|log| - 1], r) + [log[|log| - 1]];
    A.HandedOverGrows(ep[..|ep| - 1], ep[|ep| - 1], r);
    assert ep[..|ep| - 1] + [ep[|ep| - 1]] == ep;
    if !A.Heard(ep[|ep| - 1], r) && candidate {
      assert !A.GapFree(ep, r, |ep| - 1, |ep| - 1);
    }
  }
}
