/**
 After an owner change the evidence for encoded audio starts over: an encoded block accepted
 since is justified by what was logged since, or is pushed by the very step that changed the
 owner, which replays held audio and hands on the chunk that won.
 */
module MeetFresh {
  import opened Wrappers
  import opened CapturePolicy
  import opened MeetState
  import opened MeetFacts
  import opened MeetChannels
  import opened MeetPaths
  import opened MeetReplay
  import opened PcmFraming
  import T = MeetAttribution
  import A = PcmArbitration
  import R = MeetRuns

  type Log = seq<A.Event>

  predicate IsEncodedBlock(e: A.Event) {
    e.Block? && e.path == A.Encoded
  }

  /** Every receiver's state rests on the log since the last reset, and only tapped receivers were heard. */
  ghost predicate FreshOk(env: Env, lane: Lane) {
    && (forall r :: A.Rests(A.SinceReset(lane.ledger), r, env.now))
    && (forall r | r in lane.ledger.states :: r in TappedReceivers(env) || A.Unheard(lane.ledger.states[r]))
  }

  // ---- What a step appends to a log ----

  predicate OnlyBlocks(log: Log, log': Log) {
    log <= log' && forall i | |log| <= i < |log'| :: log'[i].Block?
  }

  /** No reset, and every encoded block is justified by the log since the last one. */
  ghost predicate Clean(log: Log, log': Log) {
    && log <= log'
    && forall i | |log| <= i < |log'| ::
         !log'[i].Forgotten? && (IsEncodedBlock(log'[i]) ==> A.Justified(A.Since(log'[..i]), log'[i].receiver))
  }

  /** A reset comes first, and no frame before a block. */
  predicate ResetFirst(log: Log, log': Log) {
    && log < log' && log'[|log|].Forgotten?
    && forall i, j | |log| <= i < j < |log'| && log'[i].Frame? :: !log'[j].Block?
  }

  predicate ResetThenBlocks(log: Log, log': Log) {
    && log < log' && log'[|log|].Forgotten?
    && forall i | |log| <= i < |log'| :: log'[i].Block? || log'[i].Forgotten?
  }

  /** The lane of one desk step keeps its owner and its log clean, or changes its owner and resets first. */
  ghost predicate DeskStep(lane: Lane, lane': Lane) {
    || (lane'.route.generation == lane.route.generation && Clean(lane.ledger.log, lane'.ledger.log)
        && OnlyBlocks(lane.ledger.log, lane'.ledger.log))
    || (lane'.route.generation > lane.route.generation && ResetThenBlocks(lane.ledger.log, lane'.ledger.log))
  }

  // ---- Publishing ----

  lemma AcceptFresh(env: Env, lane: Lane, receiver: Receiver, path: A.Path)
    requires FreshOk(env, lane)
    ensures FreshOk(env, lane.(ledger := A.Accept(lane.ledger, receiver, path, env.now)))
  {
    var l := lane.ledger;
    A.SinceAppends(l.log, A.Block(receiver, env.now, path));
    forall r ensures A.Rests(A.SinceReset(A.Accept(l, receiver, path, env.now)), r, env.now) {
      A.AcceptRests(A.SinceReset(l), receiver, path, r, env.now);
      assert A.SinceReset(A.Accept(l, receiver, path, env.now)) == A.Accept(A.SinceReset(l), receiver, path, env.now);
    }
  }

  lemma OnBlockFresh(env: Env, lane: Lane, entry: Entry, e: EntryId, block: seq<Sample>)
    requires FreshOk(env, lane)
    ensures FreshOk(env, OnBlock(env, lane, entry, e, block))
    ensures OnlyBlocks(lane.ledger.log, OnBlock(env, lane, entry, e, block).ledger.log)
  {
    OnBlockLedger(env, lane, entry, e, block);
    AcceptFresh(env, lane, entry.receiver, entry.path);
  }

  lemma {:induction false} OnBlocksFresh(env: Env, lane: Lane, entry: Entry, e: EntryId, blocks: seq<seq<Sample>>)
    requires FreshOk(env, lane)
    ensures FreshOk(env, OnBlocks(env, lane, entry, e, blocks))
    ensures OnlyBlocks(lane.ledger.log, OnBlocks(env, lane, entry, e, blocks).ledger.log)
    decreases |blocks|
  {
    if blocks != [] {
      OnBlockFresh(env, lane, entry, e, blocks[0]);
      OnBlocksFresh(env, OnBlock(env, lane, entry, e, blocks[0]), entry, e, blocks[1..]);
    }
  }

  lemma PushFresh(env: Env, lane: Lane, e: EntryId, samples: seq<real>)
    requires FreshOk(env, lane)
    ensures FreshOk(env, PushPcm(env, lane, e, samples))
    ensures OnlyBlocks(lane.ledger.log, PushPcm(env, lane, e, samples).ledger.log)
  {
    if env.running && e in env.entries {
      OnBlocksFresh(env, lane.(buffers := lane.buffers[e := BufferOf(lane, e)]), env.entries[e], e,
        Blocks(BufferOf(lane, e) + Stamp(samples, lane.route.generation)));
    }
  }

  lemma {:induction false} PushChunksFresh(env: Env, lane: Lane, chunks: seq<Chunk>)
    requires FreshOk(env, lane)
    ensures FreshOk(env, PushChunks(env, lane, chunks))
    ensures OnlyBlocks(lane.ledger.log, PushChunks(env, lane, chunks).ledger.log)
    decreases |chunks|
  {
    if chunks != [] {
      PushFresh(env, lane, chunks[0].entry, chunks[0].samples);
      PushChunksFresh(env, PushPcm(env, lane, chunks[0].entry, chunks[0].samples), chunks[1..]);
    }
  }

  lemma FlushFresh(env: Env, lane: Lane)
    requires FreshOk(env, lane)
    ensures FreshOk(env, FlushChallenge(env, lane))
    ensures OnlyBlocks(lane.ledger.log, FlushChallenge(env, lane).ledger.log)
  {
    PushChunksFresh(env, Replayed(lane), lane.challengeAudio);
  }

  // ---- Publishing what is justified ----

  /** An entry whose blocks the log since the last reset justifies. */
  ghost predicate Fair(log: Log, entry: Entry) {
    entry.path == A.Encoded ==> A.Justified(A.Since(log), entry.receiver)
  }

  lemma OnBlockClean(env: Env, lane: Lane, entry: Entry, e: EntryId, block: seq<Sample>)
    requires Fair(lane.ledger.log, entry)
    ensures var log' := OnBlock(env, lane, entry, e, block).ledger.log;
            Clean(lane.ledger.log, log') && Fair(log', entry)
  {
    OnBlockLedger(env, lane, entry, e, block);
    BlockClean(lane.ledger.log, entry, env.now);
  }

  lemma BlockClean(log: Log, entry: Entry, now: Time)
    requires Fair(log, entry)
    ensures var log' := log + [A.Block(entry.receiver, now, entry.path)]; Clean(log, log') && Fair(log', entry)
  {
    var b := A.Block(entry.receiver, now, entry.path);
    assert (log + [b])[..|log|] == log;
    A.SinceAppends(log, b);
    if entry.path == A.Encoded {
      A.JustifiedGrows(A.Since(log), b, entry.receiver);
    }
  }

  lemma CleanJoins(a: Log, b: Log, c: Log)
    requires Clean(a, b) && Clean(b, c)
    ensures Clean(a, c)
  {
    forall i | |a| <= i < |c|
      ensures !c[i].Forgotten? && (IsEncodedBlock(c[i]) ==> A.Justified(A.Since(c[..i]), c[i].receiver))
    {
      if i < |b| {
        assert c[..i] == b[..i] && c[i] == b[i];
      }
    }
  }

  lemma {:induction false} OnBlocksClean(env: Env, lane: Lane, entry: Entry, e: EntryId, blocks: seq<seq<Sample>>)
    requires Fair(lane.ledger.log, entry)
    ensures Clean(lane.ledger.log, OnBlocks(env, lane, entry, e, blocks).ledger.log)
    decreases |blocks|
  {
    if blocks != [] {
      var next := OnBlock(env, lane, entry, e, blocks[0]);
      OnBlockClean(env, lane, entry, e, blocks[0]);
      OnBlocksClean(env, next, entry, e, blocks[1..]);
      CleanJoins(lane.ledger.log, next.ledger.log, OnBlocks(env, next, entry, e, blocks[1..]).ledger.log);
    }
  }

  lemma PushClean(env: Env, lane: Lane, e: EntryId, samples: seq<real>)
    requires e in env.entries && Fair(lane.ledger.log, env.entries[e])
    ensures Clean(lane.ledger.log, PushPcm(env, lane, e, samples).ledger.log)
  {
    if env.running {
      OnBlocksClean(env, lane.(buffers := lane.buffers[e := BufferOf(lane, e)]), env.entries[e], e,
        Blocks(BufferOf(lane, e) + Stamp(samples, lane.route.generation)));
    }
  }

  /** Who owns its source on the encoded path is justified by the log since the last reset. */
  lemma PublisherIsFair(env: Env, lane: Lane, entry: Entry)
    requires FreshOk(env, lane) && (entry.path == A.Encoded ==> A.CanPublish(lane.ledger, entry.receiver))
    ensures Fair(lane.ledger.log, entry)
  {
    if entry.path == A.Encoded {
      assert A.Rests(A.SinceReset(lane.ledger), entry.receiver, env.now);
    }
  }

  // ---- Owner changes ----

  /** A reset is all that is new. */
  predicate ResetNow(log: Log, log': Log) {
    |log'| == |log| + 1 && log <= log' && log'[|log|].Forgotten?
  }

  /** The source is forgotten: no lease, and no partial block of a live entry. */
  predicate IsReset(env: Env, lane: Lane, lane': Lane) {
    && ResetNow(lane.ledger.log, lane'.ledger.log) && lane'.ledger.lease.None?
    && forall e | e in lane'.buffers :: !Live(env, e)
  }

  lemma AssignFresh(env: Env, desk: Desk, next: DeviceId)
    requires FreshOk(env, desk.lane)
    ensures var lane' := AssignDevice(env, desk, next).lane;
            && FreshOk(env, lane')
            && (next == desk.lane.route.deviceId ==> lane' == desk.lane)
            && (next != desk.lane.route.deviceId ==>
                  && lane'.route.generation == desk.lane.route.generation + 1
                  && IsReset(env, desk.lane, lane'))
  {
    if next != desk.lane.route.deviceId {
      var l, l' := desk.lane.ledger, A.Forget(desk.lane.ledger, TappedReceivers(env));
      A.SinceAppends(l.log, A.Forgotten(l.states.Keys - TappedReceivers(env)));
      forall r ensures A.Rests(A.SinceReset(l'), r, env.now) {
        assert A.Rests(A.SinceReset(l), r, env.now);
        A.UnheardRests(A.SinceReset(l'), r, env.now);
      }
    }
  }

  lemma ResetBlocks(log: Log, mid: Log, log': Log)
    requires ResetNow(log, mid) && OnlyBlocks(mid, log')
    ensures ResetThenBlocks(log, log')
  {
  }

  /** An update leaves owner and ledger, or changes the owner and resets first. */
  predicate RouteStep(lane: Lane, lane': Lane) {
    || (lane'.route.generation == lane.route.generation && lane'.ledger == lane.ledger)
    || (lane'.route.generation > lane.route.generation && ResetThenBlocks(lane.ledger.log, lane'.ledger.log))
  }

  lemma UpdateFresh(env: Env, desk: Desk)
    requires FreshOk(env, desk.lane) && ChallengeOk(desk.lane)
    ensures var lane' := UpdateRoute(env, desk).lane;
            FreshOk(env, lane') && RouteStep(desk.lane, lane')
  {
    var read := ReadProtocol(env, desk.lane);
    var before, deviceId := Desk(desk.registry, Resolved(desk.lane, read)), Resolve(read).deviceId;
    AssignFresh(env, before, deviceId);
    var announced := Announce(env, AssignDevice(env, before, deviceId).lane);
    if ConfirmsChallenge(desk.lane, deviceId) {
      FlushFresh(env, announced.(vote := None));
      FlushKeeps(env, announced.(vote := None));
      ResetBlocks(desk.lane.ledger.log, announced.ledger.log, FlushChallenge(env, announced.(vote := None)).ledger.log);
    }
  }

  // ---- Delivering a decoded chunk ----

  lemma RebindFresh(env: Env, desk: Desk, candidate: DeviceId)
    requires FreshOk(env, desk.lane) && candidate != desk.lane.route.deviceId
    ensures ChangesOwner(env, desk.lane, RebindRoute(env, desk, candidate).lane)
  {
    var lane := desk.lane;
    var record := RebindRecord(candidate, env.now, lane.history.observations, desk.registry.claimLog);
    var overriding := lane.(
      route := lane.route.(activityDeviceId := candidate,
                           overriddenProtocolRawDeviceId := lane.route.protocolRawDeviceId),
      history := lane.history.(rebinds := lane.history.rebinds + [record]));
    AssignFresh(env, Desk(desk.registry, overriding), candidate);
  }

  ghost predicate ChangesOwner(env: Env, lane: Lane, lane': Lane) {
    && FreshOk(env, lane') && lane'.route.generation == lane.route.generation + 1
    && IsReset(env, lane, lane')
  }

  /** Correlation leaves owner and ledger, or changes the owner and resets. */
  lemma CorrelateFresh(env: Env, desk: Desk, peak: real, allowChallenge: bool)
    requires FreshOk(env, desk.lane)
    ensures var (desk', decision) := Correlate(env, desk, peak, allowChallenge);
            if decision == Rebind then ChangesOwner(env, desk.lane, desk'.lane)
            else desk'.lane.ledger == desk.lane.ledger && desk'.lane.route == desk.lane.route
  {
    CorrelateResult(env, desk, peak, allowChallenge);
    if Correlate(env, desk, peak, allowChallenge).1 == Rebind {
      var candidate := TheOnly(Candidates(env.users, env.active)).value;
      RebindIsChallenge(env, desk, peak, allowChallenge);
      ChallengeFresh(env, Seen(env, desk, candidate), candidate);
    } else {
      T.CorrelateKeepsAudio(env, desk, peak, allowChallenge);
    }
  }

  lemma ChallengeFresh(env: Env, desk: Desk, candidate: DeviceId)
    requires FreshOk(env, desk.lane) && Challenge(env, desk, candidate, true).1 == Rebind
    requires candidate != desk.lane.route.deviceId
    ensures ChangesOwner(env, desk.lane, Challenge(env, desk, candidate, true).0.lane)
  {
    ChallengeResult(env, desk, candidate, true);
    var lane := if desk.lane.challengeDeviceId != candidate then OpenChallenge(desk.lane, candidate) else desk.lane;
    RebindFresh(env, Desk(desk.registry, lane.(vote := Some(NextIdentityVote(lane.vote, candidate, env.now)))), candidate);
  }

  lemma SendFresh(env: Env, lane: Lane, e: EntryId, samples: seq<real>)
    requires FreshOk(env, lane) && e in env.entries
    requires env.entries[e].path == A.Encoded ==> A.CanPublish(lane.ledger, env.entries[e].receiver)
    ensures FreshOk(env, PushPcm(env, lane, e, samples)) && DeskStep(lane, PushPcm(env, lane, e, samples))
  {
    PublisherIsFair(env, lane, env.entries[e]);
    PushFresh(env, lane, e, samples);
    PushClean(env, lane, e, samples);
    PushKeeps(env, lane, e, samples);
  }

  lemma BlocksJoin(a: Log, b: Log, c: Log)
    requires OnlyBlocks(a, b) && OnlyBlocks(b, c)
    ensures OnlyBlocks(a, c)
  {
  }

  /** The held audio and the chunk that won follow the reset at once. */
  lemma ReplayFresh(env: Env, lane: Lane, e: EntryId, samples: seq<real>)
    requires FreshOk(env, lane)
    ensures var lane' := PushPcm(env, FlushChallenge(env, lane), e, samples);
            && FreshOk(env, lane') && OnlyBlocks(lane.ledger.log, lane'.ledger.log)
            && lane'.route == lane.route
  {
    var flushed := FlushChallenge(env, lane);
    FlushFresh(env, lane);
    FlushKeeps(env, lane);
    PushFresh(env, flushed, e, samples);
    PushKeeps(env, flushed, e, samples);
    BlocksJoin(lane.ledger.log, flushed.ledger.log, PushPcm(env, flushed, e, samples).ledger.log);
  }

  lemma DeliverFresh(env: Env, desk: Desk, e: EntryId, samples: seq<real>, peak: real, allowChallenge: bool)
    requires FreshOk(env, desk.lane) && e in env.entries
    requires env.entries[e].path == A.Encoded ==> A.CanPublish(desk.lane.ledger, env.entries[e].receiver)
    ensures var lane' := Deliver(env, desk, e, samples, peak, allowChallenge).lane;
            FreshOk(env, lane') && DeskStep(desk.lane, lane')
  {
    CorrelateFresh(env, desk, peak, allowChallenge);
    var (correlated, decision) := Correlate(env, desk, peak, allowChallenge);
    match decision
    case Drop =>
    case Hold =>
    case Send => SendFresh(env, correlated.lane, e, samples);
    case Rebind =>
      ReplayFresh(env, correlated.lane, e, samples);
      ResetBlocks(desk.lane.ledger.log, correlated.lane.ledger.log,
        PushPcm(env, FlushChallenge(env, correlated.lane), e, samples).ledger.log);
  }

  // ---- Frames ----

  lemma FrameFresh(env: Env, lane: Lane, receiver: Receiver, audible: bool, candidate: bool, native: Option<EntryId>)
    requires FreshOk(env, lane) && receiver in TappedReceivers(env)
    ensures var lane' := ReceiveFrame(env, lane, receiver, audible, candidate, native);
            && FreshOk(env, lane') && lane'.route == lane.route
            && lane'.ledger.log == lane.ledger.log + [A.Frame(receiver, env.now, audible, candidate)]
  {
    var l := lane.ledger;
    var l' := A.Decide(l, receiver, audible, candidate, env.now);
    A.SinceAppends(l.log, A.Frame(receiver, env.now, audible, candidate));
    forall r ensures A.Rests(A.SinceReset(l'), r, env.now) {
      A.DecideRests(A.SinceReset(l), receiver, audible, candidate, r, env.now);
      assert A.SinceReset(l') == A.Decide(A.SinceReset(l), receiver, audible, candidate, env.now);
    }
  }

  // ---- Replaying right after the reset ----

  /** The first block of a chunk is full and loud enough, and its encoded tap is live. */
  predicate FullAndLoud(env: Env, c: Chunk) {
    LiveTap(env, c.entry) && |c.samples| >= BLOCK && Peak(c.samples[..BLOCK]) >= PEAK_THRESHOLD
  }

  lemma FirstBlock(env: Env, lane: Lane, c: Chunk)
    requires env.running && FullAndLoud(env, c) && lane.ledger.lease.None? && c.entry !in lane.buffers
    requires lane.route.channel == MIC_CHANNEL ==> env.micOpen
    ensures lane.ledger.log + [A.Block(env.entries[c.entry].receiver, env.now, A.Encoded)]
            <= PushPcm(env, lane, c.entry, c.samples).ledger.log
  {
    var stream := Stamp(c.samples, lane.route.generation);
    var entry, present := env.entries[c.entry], lane.(buffers := lane.buffers[c.entry := BufferOf(lane, c.entry)]);
    assert BufferOf(lane, c.entry) + stream == stream;
    assert Levels(stream[..BLOCK]) == c.samples[..BLOCK];
    assert Blocks(stream)[1..] == Blocks(stream[BLOCK..]);
    OnBlocksGrow(env, OnBlock(env, present, entry, c.entry, stream[..BLOCK]), entry, c.entry, Blocks(stream[BLOCK..]));
  }

  lemma {:induction false} OnBlocksGrow(env: Env, lane: Lane, entry: Entry, e: EntryId, blocks: seq<seq<Sample>>)
    ensures lane.ledger.log <= OnBlocks(env, lane, entry, e, blocks).ledger.log
    decreases |blocks|
  {
    if blocks != [] {
      OnBlockLedger(env, lane, entry, e, blocks[0]);
      OnBlocksGrow(env, OnBlock(env, lane, entry, e, blocks[0]), entry, e, blocks[1..]);
    }
  }

  /**
   The audio that disproved the owner is published in the step that resets: with a full, loud
   block first in line, the log goes on with the reset and that encoded block.
   */
  lemma ReplayFollowsReset(env: Env, desk: Desk, e: EntryId, samples: seq<real>, peak: real, allowChallenge: bool)
    requires FreshOk(env, desk.lane) && env.running && Correlate(env, desk, peak, allowChallenge).1 == Rebind
    requires var lane := Correlate(env, desk, peak, allowChallenge).0.lane;
             && FullAndLoud(env, (lane.challengeAudio + [Chunk(e, samples)])[0])
             && (lane.route.channel == MIC_CHANNEL ==> env.micOpen)
    ensures var first := (Correlate(env, desk, peak, allowChallenge).0.lane.challengeAudio + [Chunk(e, samples)])[0];
            var log, log' := desk.lane.ledger.log, Deliver(env, desk, e, samples, peak, allowChallenge).lane.ledger.log;
            && |log| + 2 <= |log'| && log <= log' && log'[|log|].Forgotten?
            && log'[|log| + 1] == A.Block(env.entries[first.entry].receiver, env.now, A.Encoded)
  {
    CorrelateFresh(env, desk, peak, allowChallenge);
    var lane := Correlate(env, desk, peak, allowChallenge).0.lane;
    var flushed := FlushChallenge(env, lane);
    FlushFresh(env, lane);
    PushFresh(env, flushed, e, samples);
    if lane.challengeAudio == [] {
      FirstBlock(env, Replayed(lane), Chunk(e, samples));
    } else {
      var c := lane.challengeAudio[0];
      var first := PushPcm(env, Replayed(lane), c.entry, c.samples);
      FirstBlock(env, Replayed(lane), c);
      PushFresh(env, Replayed(lane), c.entry, c.samples);
      PushChunksFresh(env, first, lane.challengeAudio[1..]);
    }
  }
}
