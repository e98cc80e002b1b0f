/**
 Over whole runs: where every chunk goes that arrives, and that reliable speech is published
 on its owner's channel.
 */
module MeetHeard {
  import opened Wrappers
  import opened MeetState
  import opened MeetFacts
  import opened MeetChannels
  import opened MeetDelivery
  import opened MeetPublishing
  import opened PcmFraming
  import A = PcmArbitration
  import G = MeetStartGuard
  import R = MeetRuns
  import T = MeetAttribution

  /** The desk of a source in a state. */
  function DeskOf(s: State, src: Source): Desk
    requires src in s.lanes
  {
    Desk(s.registry, s.lanes[src])
  }

  /** After every run, a native chunk goes where its route, brought up to date, says. */
  lemma NativeGoesExactly(steps: seq<Step>, c: Chunk, src: Source, peak: real)
    requires var s := Run(INITIAL, steps);
             && s.env.running && Routable(src)
             && c.entry in s.env.entries && s.env.entries[c.entry].path == A.Native
    ensures var s := Run(INITIAL, steps); var s' := Apply(s, NativePcm(c.entry, src, c.samples, peak, false));
            && src in s'.lanes && s'.env == s.env
            && Goes(s.env, RouteForSource(s, src), DeskOf(s', src), c, peak, true)
  {
    R.RunInv(steps);
    NativeGoes(Run(INITIAL, steps), c, src, peak);
  }

  /** A native chunk leaves the desk that delivering it leaves. */
  lemma NativeIsDelivered(s: State, c: Chunk, src: Source, peak: real)
    requires R.StateInv(s) && s.env.running && Routable(src)
    requires c.entry in s.env.entries && s.env.entries[c.entry].path == A.Native
    ensures var s' := Apply(s, NativePcm(c.entry, src, c.samples, peak, false));
            && src in s'.lanes && s'.env == s.env
            && DeskOf(s', src) == Deliver(s.env, RouteForSource(s, src), c.entry, c.samples, peak, true)
  {
    R.RouteForSourceInv(s, src);
    R.DeliverKeepsSource(s.env, RouteForSource(s, src), c.entry, c.samples, peak, true);
    PutHolds(WithRoute(s, src), Deliver(s.env, RouteForSource(s, src), c.entry, c.samples, peak, true), src);
  }

  lemma PutHolds(s: State, desk: Desk, src: Source)
    requires desk.lane.source == src
    ensures src in Put(s, desk).lanes && DeskOf(Put(s, desk), src) == desk && Put(s, desk).env == s.env
  {
  }

  lemma NativeGoes(s: State, c: Chunk, src: Source, peak: real)
    requires R.StateInv(s) && s.env.running && Routable(src)
    requires c.entry in s.env.entries && s.env.entries[c.entry].path == A.Native
    ensures var s' := Apply(s, NativePcm(c.entry, src, c.samples, peak, false));
            && src in s'.lanes && s'.env == s.env
            && Goes(s.env, RouteForSource(s, src), DeskOf(s', src), c, peak, true)
  {
    NativeIsDelivered(s, c, src, peak);
    R.RouteForSourceInv(s, src);
    ChunkGoesExactly(s.env, RouteForSource(s, src), c, peak, true);
  }

  /** A decoded chunk leaves the desk that delivering it leaves, while its receiver owns the source. */
  lemma DecodedIsDelivered(s: State, c: Chunk, src: Source, peak: real, allowChallenge: bool)
    requires R.StateInv(s) && s.env.running && LiveTap(s.env, c.entry) && src in s.lanes
    ensures var s' := Apply(s, EncodedPcm(c.entry, src, c.samples, peak, allowChallenge));
            && src in s'.lanes && s'.env == s.env
            && if A.CanPublish(s.lanes[src].ledger, s.env.entries[c.entry].receiver)
               then DeskOf(s', src) == Deliver(s.env, DeskOf(s, src), c.entry, c.samples, peak, allowChallenge)
               else s' == s
  {
    DecodedIsStep(s, c.entry, src, c.samples, peak, allowChallenge);
    R.DeliverKeepsSource(s.env, DeskOf(s, src), c.entry, c.samples, peak, allowChallenge);
    PutHolds(s, Deliver(s.env, DeskOf(s, src), c.entry, c.samples, peak, allowChallenge), src);
  }

  /** After every run, a decoded chunk of a live tap goes somewhere exactly while the encoded path owns the source. */
  lemma DecodedGoesExactly(steps: seq<Step>, c: Chunk, src: Source, peak: real, allowChallenge: bool)
    requires var s := Run(INITIAL, steps); s.env.running && LiveTap(s.env, c.entry) && src in s.lanes
    ensures var s := Run(INITIAL, steps);
            var s' := Apply(s, EncodedPcm(c.entry, src, c.samples, peak, allowChallenge));
            var l, r := s.lanes[src].ledger, s.env.entries[c.entry].receiver;
            && src in s'.lanes && s'.env == s.env
            && if A.HandedOver(A.Episode(l.log, r), r)
               then Goes(s.env, DeskOf(s, src), DeskOf(s', src), c, peak, allowChallenge) else s' == s
  {
    var s := Run(INITIAL, steps);
    R.RunInv(steps);
    R.EncodedOwnerExactly(steps, src, s.env.entries[c.entry].receiver);
    DecodedIsDelivered(s, c, src, peak, allowChallenge);
    ChunkGoesExactly(s.env, DeskOf(s, src), c, peak, allowChallenge);
  }

  // ---- Reliable speech is published ----

  /** The source is free for the receiver: nothing was accepted for it, or what was lets it follow. */
  predicate SourceFree(log: seq<A.Event>, entry: Entry, now: Time) {
    var holder := A.Holder(log);
    holder.None? || A.MayFollow(log[holder.value], A.Block(entry.receiver, now, entry.path))
  }

  /** What must hold for a chunk of the owner to be heard. */
  ghost predicate Speaks(env: Env, desk: Desk, e: EntryId, allowChallenge: bool) {
    && env.running && Live(env, e)
    && desk.lane.route.deviceId != NO_DEVICE && Reliable(env, desk.lane, allowChallenge)
    && (forall d :: !Challenges(env, desk, allowChallenge, d))
    && (desk.lane.route.channel == MIC_CHANNEL ==> env.micOpen)
    && SourceFree(desk.lane.ledger.log, env.entries[e], env.now)
  }

  /** The audible full blocks went out last, behind what waited, on the channel of the owner. */
  predicate HeardAsOwner(before: Lane, reg: Registry, lane: Lane, loud: seq<seq<Sample>>) {
    && lane.posted == before.posted + (if loud == [] then [] else OnChannel(before.pendingAudio + loud, lane.route.channel))
    && lane.route.deviceId == before.route.deviceId
    && T.OnChannelOf(reg.channels, lane.route.channel, lane.route.deviceId)
  }

  lemma SpeakerIsHeard(env: Env, desk: Desk, desk': Desk, c: Chunk, peak: real, allowChallenge: bool)
    requires Speaks(env, desk, c.entry, allowChallenge) && A.LedgerOk(desk.lane.ledger, env.now)
    requires Goes(env, desk, desk', c, peak, allowChallenge) && T.ChannelOk(desk'.registry, desk'.lane)
    ensures HeardAsOwner(desk.lane, desk'.registry, desk'.lane, Audible(Blocks(Stream(desk.lane, c.entry, c.samples))))
  {
    var settled, entry := Settled(env, desk.lane, peak), env.entries[c.entry];
    A.ClaimableFollows(desk.lane.ledger, entry.receiver, entry.path, env.now);
    PushPublishesExactly(env, settled, c.entry, c.samples);
    assert Stream(settled, c.entry, c.samples) == Stream(desk.lane, c.entry, c.samples);
  }

  /** After every run, native speech of a route that can be relied on is published as its owner's. */
  lemma NativeSpeechIsPublished(steps: seq<Step>, c: Chunk, src: Source, peak: real)
    requires var s := Run(INITIAL, steps);
             && Routable(src) && c.entry in s.env.entries && s.env.entries[c.entry].path == A.Native
             && Speaks(s.env, RouteForSource(s, src), c.entry, true)
    ensures var s := Run(INITIAL, steps); var s' := Apply(s, NativePcm(c.entry, src, c.samples, peak, false));
            var lane := RouteForSource(s, src).lane;
            src in s'.lanes
            && HeardAsOwner(lane, s'.registry, s'.lanes[src], Audible(Blocks(Stream(lane, c.entry, c.samples))))
  {
    var s := Run(INITIAL, steps);
    NativeGoesExactly(steps, c, src, peak);
    R.RunInv(steps);
    R.RouteForSourceInv(s, src);
    RunChannels(INITIAL, steps);
    StepChannels(s, NativePcm(c.entry, src, c.samples, peak, false));
    SpeakerIsHeard(s.env, RouteForSource(s, src), DeskOf(Apply(s, NativePcm(c.entry, src, c.samples, peak, false)), src),
      c, peak, true);
  }

  /** The same of decoded speech, while the encoded path owns the source. */
  lemma DecodedSpeechIsPublished(steps: seq<Step>, c: Chunk, src: Source, peak: real, allowChallenge: bool)
    requires var s := Run(INITIAL, steps);
             && src in s.lanes && LiveTap(s.env, c.entry)
             && Speaks(s.env, DeskOf(s, src), c.entry, allowChallenge)
             && var r := s.env.entries[c.entry].receiver;
                A.HandedOver(A.Episode(s.lanes[src].ledger.log, r), r)
    ensures var s := Run(INITIAL, steps);
            var s' := Apply(s, EncodedPcm(c.entry, src, c.samples, peak, allowChallenge));
            src in s'.lanes
            && HeardAsOwner(s.lanes[src], s'.registry, s'.lanes[src], Audible(Blocks(Stream(s.lanes[src], c.entry, c.samples))))
  {
    var s := Run(INITIAL, steps);
    DecodedGoesExactly(steps, c, src, peak, allowChallenge);
    R.RunInv(steps);
    RunChannels(INITIAL, steps);
    StepChannels(s, EncodedPcm(c.entry, src, c.samples, peak, allowChallenge));
    SpeakerIsHeard(s.env, DeskOf(s, src),
      DeskOf(Apply(s, EncodedPcm(c.entry, src, c.samples, peak, allowChallenge)), src), c, peak, allowChallenge);
  }

  // ---- What is not heard ----

  predicate Arrives(step: Step) {
    step.NativePcm? || step.EncodedFrame?
  }

  /** After every run, only sources that carry audio have a route; what arrives of any other changes nothing. */
  lemma OnlyAudioIsRouted(steps: seq<Step>, step: Step)
    ensures forall src | src in Run(INITIAL, steps).lanes :: src != "" && src != "42"
    ensures Arrives(step) && (step.source == "" || step.source == "42") ==> Run(INITIAL, steps + [step]) == Run(INITIAL, steps)
  {
    G.RunLists(steps);
    RunStep(INITIAL, steps, step);
  }

  /** After every run, what arrives marked as Kuali's own user brings its route up to date and is not heard. */
  lemma OwnVoiceIsUnheard(steps: seq<Step>, step: Step)
    requires Arrives(step) && step.isSelf && Enabled(Run(INITIAL, steps), step)
    requires Run(INITIAL, steps).env.running && Routable(step.source)
    ensures var s, s' := Run(INITIAL, steps), Run(INITIAL, steps + [step]);
            && s'.env == s.env && s'.lanes.Keys == s.lanes.Keys + {step.source}
            && DeskOf(s', step.source) == RouteForSource(s, step.source)
            && s'.lanes[step.source].history.observations ==
                 (if step.source in s.lanes then s.lanes[step.source].history.observations else [])
            && forall other | other in s.lanes && other != step.source :: s'.lanes[other] == s.lanes[other]
  {
    R.RunInv(steps);
    RunStep(INITIAL, steps, step);
    OwnVoiceIsUpdate(Run(INITIAL, steps), step);
    UpdatesOneRoute(Run(INITIAL, steps), step.source);
  }

  lemma OwnVoiceIsUpdate(s: State, step: Step)
    requires Arrives(step) && step.isSelf && Enabled(s, step) && s.env.running && Routable(step.source)
    ensures Apply(s, step) == WithRoute(s, step.source)
  {
  }

  lemma UpdatesOneRoute(s: State, src: Source)
    requires R.StateInv(s)
    ensures var s' := WithRoute(s, src);
            && s'.env == s.env && s'.lanes.Keys == s.lanes.Keys + {src}
            && DeskOf(s', src) == RouteForSource(s, src)
            && s'.lanes[src].history.observations ==
                 (if src in s.lanes then s.lanes[src].history.observations else [])
            && forall other | other in s.lanes && other != src :: s'.lanes[other] == s.lanes[other]
  {
    R.RouteForSourceInv(s, src);
    RouteObservesNothing(s, src);
    PutTouchesOne(if src in s.lanes then s else s.(order := s.order + [src]), RouteForSource(s, src), src);
  }

  lemma PutTouchesOne(s: State, desk: Desk, src: Source)
    requires desk.lane.source == src
    ensures var s' := Put(s, desk);
            && s'.env == s.env && s'.lanes.Keys == s.lanes.Keys + {src} && DeskOf(s', src) == desk
            && forall other | other in s.lanes && other != src :: s'.lanes[other] == s.lanes[other]
  {
  }

  lemma RouteObservesNothing(s: State, src: Source)
    ensures RouteForSource(s, src).lane.history.observations ==
              if src in s.lanes then s.lanes[src].history.observations else []
  {
    if src in s.lanes {
      UpdateRouteResult(s.env, DeskOf(s, src));
    }
  }
}
