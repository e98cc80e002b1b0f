/**
 Path arbitration inside the routing machine: also audio held during a challenge and
 replayed after the arbitration was reset is accepted only as the ledger allows.
 */
module MeetPaths {
  import opened Wrappers
  import opened MeetState
  import opened MeetFacts
  import opened MeetHolding
  import opened PcmFraming
  import A = PcmArbitration

  /** An encoded block may come now: it is justified, or a native block of this instant excludes it. */
  ghost predicate Admits(l: A.Ledger, r: Receiver, now: Time) {
    || A.Justified(l.log, r)
    || (l.lease.Some? && l.lease.value.path == A.Native && l.lease.value.seenAt == now)
  }

  ghost predicate ChunkOk(env: Env, l: A.Ledger, c: Chunk) {
    && c.entry in env.entries
    && (env.entries[c.entry].path == A.Encoded ==> A.Justified(l.log, env.entries[c.entry].receiver))
  }

  ghost predicate PathsOk(env: Env, lane: Lane) {
    && A.LedgerOk(lane.ledger, env.now)
    && forall c | c in lane.challengeAudio :: ChunkOk(env, lane.ledger, c)
  }

  // ---- Publishing ----

  ghost predicate MayPush(env: Env, lane: Lane, entry: Entry) {
    A.LedgerOk(lane.ledger, env.now) && (entry.path == A.Encoded ==> Admits(lane.ledger, entry.receiver, env.now))
  }

  lemma OnBlockLedger(env: Env, lane: Lane, entry: Entry, e: EntryId, block: seq<Sample>)
    ensures var l' := OnBlock(env, lane, entry, e, block).ledger;
            || l' == lane.ledger
            || (&& A.Claimable(lane.ledger, entry.receiver, entry.path, env.now)
                && l' == A.Accept(lane.ledger, entry.receiver, entry.path, env.now))
  {
  }

  lemma AcceptAdmits(l: A.Ledger, path: A.Path, receiver: Receiver, now: Time, r: Receiver)
    requires A.LedgerOk(l, now) && A.Claimable(l, receiver, path, now)
    requires Admits(l, r, now) && (path == A.Encoded ==> Admits(l, receiver, now))
    ensures var l' := A.Accept(l, receiver, path, now);
            A.LedgerOk(l', now) && Admits(l', r, now) && (path == A.Encoded ==> Admits(l', receiver, now))
  {
    A.AcceptOk(l, receiver, path, now);
    if path == A.Encoded {
      A.JustifiedGrows(l.log, A.Block(receiver, now, path), receiver);
      A.JustifiedGrows(l.log, A.Block(receiver, now, path), r);
    }
  }

  lemma OnBlockPaths(env: Env, lane: Lane, entry: Entry, e: EntryId, block: seq<Sample>, r: Receiver)
    requires MayPush(env, lane, entry) && Admits(lane.ledger, r, env.now)
    ensures var lane' := OnBlock(env, lane, entry, e, block);
            MayPush(env, lane', entry) && Admits(lane'.ledger, r, env.now)
  {
    OnBlockLedger(env, lane, entry, e, block);
    if A.Claimable(lane.ledger, entry.receiver, entry.path, env.now) {
      AcceptAdmits(lane.ledger, entry.path, entry.receiver, env.now, r);
    }
  }

  lemma OnBlockAlone(env: Env, lane: Lane, entry: Entry, e: EntryId, block: seq<Sample>)
    requires MayPush(env, lane, entry)
    ensures MayPush(env, OnBlock(env, lane, entry, e, block), entry)
  {
    if entry.path == A.Encoded {
      OnBlockPaths(env, lane, entry, e, block, entry.receiver);
    } else {
      OnBlockLedger(env, lane, entry, e, block);
      A.AcceptWhenClaimable(lane.ledger, entry.receiver, env.now);
    }
  }

  lemma {:induction false} OnBlocksPaths(env: Env, lane: Lane, entry: Entry, e: EntryId, blocks: seq<seq<Sample>>, rs: set<Receiver>)
    requires MayPush(env, lane, entry) && forall r | r in rs :: Admits(lane.ledger, r, env.now)
    ensures var lane' := OnBlocks(env, lane, entry, e, blocks);
            MayPush(env, lane', entry) && forall r | r in rs :: Admits(lane'.ledger, r, env.now)
    decreases |blocks|
  {
    if blocks != [] {
      OnBlockAlone(env, lane, entry, e, blocks[0]);
      forall r | r in rs ensures Admits(OnBlock(env, lane, entry, e, blocks[0]).ledger, r, env.now) {
        OnBlockPaths(env, lane, entry, e, blocks[0], r);
      }
      OnBlocksPaths(env, OnBlock(env, lane, entry, e, blocks[0]), entry, e, blocks[1..], rs);
    }
  }

  lemma PushPaths(env: Env, lane: Lane, e: EntryId, samples: seq<real>, rs: set<Receiver>)
    requires A.LedgerOk(lane.ledger, env.now) && forall r | r in rs :: Admits(lane.ledger, r, env.now)
    requires e in env.entries && (env.entries[e].path == A.Encoded ==> env.entries[e].receiver in rs)
    ensures var lane' := PushPcm(env, lane, e, samples);
            A.LedgerOk(lane'.ledger, env.now) && forall r | r in rs :: Admits(lane'.ledger, r, env.now)
  {
    if env.running {
      var present := lane.(buffers := lane.buffers[e := BufferOf(lane, e)]);
      OnBlocksPaths(env, present, env.entries[e], e,
        Blocks(BufferOf(lane, e) + Stamp(samples, lane.route.generation)), rs);
    }
  }

  lemma {:induction false} PushChunksPaths(env: Env, lane: Lane, chunks: seq<Chunk>, rs: set<Receiver>)
    requires A.LedgerOk(lane.ledger, env.now) && forall r | r in rs :: Admits(lane.ledger, r, env.now)
    requires forall c | c in chunks ::
               c.entry in env.entries && (env.entries[c.entry].path == A.Encoded ==> env.entries[c.entry].receiver in rs)
    ensures var lane' := PushChunks(env, lane, chunks);
            A.LedgerOk(lane'.ledger, env.now) && forall r | r in rs :: Admits(lane'.ledger, r, env.now)
    decreases |chunks|
  {
    if chunks != [] {
      PushPaths(env, lane, chunks[0].entry, chunks[0].samples, rs);
      PushChunksPaths(env, PushPcm(env, lane, chunks[0].entry, chunks[0].samples), chunks[1..], rs);
    }
  }

  function EncodedReceivers(env: Env, chunks: seq<Chunk>): set<Receiver> {
    set c | c in chunks && c.entry in env.entries && env.entries[c.entry].path == A.Encoded :: env.entries[c.entry].receiver
  }

  /** Replaying what was held: each chunk still has its justification, or a native block shuts it out. */
  lemma FlushPaths(env: Env, lane: Lane, rs: set<Receiver>)
    requires PathsOk(env, lane) && forall r | r in rs :: Admits(lane.ledger, r, env.now)
    ensures var lane' := FlushChallenge(env, lane);
            PathsOk(env, lane') && forall r | r in rs :: Admits(lane'.ledger, r, env.now)
  {
    var all := EncodedReceivers(env, lane.challengeAudio) + rs;
    forall r | r in all ensures Admits(lane.ledger, r, env.now) {
      if r !in rs {
        var c :| c in lane.challengeAudio && c.entry in env.entries
              && env.entries[c.entry].path == A.Encoded && env.entries[c.entry].receiver == r;
        assert ChunkOk(env, lane.ledger, c);
      }
    }
    forall c | c in lane.challengeAudio ensures c.entry in env.entries {
      assert ChunkOk(env, lane.ledger, c);
    }
    PushChunksPaths(env, Replayed(lane), lane.challengeAudio, all);
    FlushKeeps(env, lane);
  }

  // ---- Owner changes and correlation ----

  /** The ledger is the same or was forgotten: whatever was justified still is. */
  predicate SameOrForgotten(env: Env, lane: Lane, lane': Lane) {
    || lane'.ledger == lane.ledger
    || lane'.ledger == A.Forget(lane.ledger, TappedReceivers(env))
  }

  lemma ForgottenPaths(env: Env, lane: Lane, lane': Lane, r: Receiver)
    requires A.LedgerOk(lane.ledger, env.now) && SameOrForgotten(env, lane, lane')
    ensures A.LedgerOk(lane'.ledger, env.now)
    ensures A.Justified(lane.ledger.log, r) ==> A.Justified(lane'.ledger.log, r)
  {
    A.ForgetOk(lane.ledger, TappedReceivers(env), env.now);
    if A.Justified(lane.ledger.log, r) {
      A.JustifiedGrows(lane.ledger.log, A.Forgotten(lane.ledger.states.Keys - TappedReceivers(env)), r);
    }
  }

  lemma ForgottenKeepsPaths(env: Env, lane: Lane, lane': Lane)
    requires PathsOk(env, lane) && SameOrForgotten(env, lane, lane')
    requires lane'.challengeAudio == lane.challengeAudio || lane'.challengeAudio == []
    ensures PathsOk(env, lane')
  {
    ForgottenPaths(env, lane, lane', 0);
    forall c | c in lane'.challengeAudio ensures ChunkOk(env, lane'.ledger, c) {
      assert ChunkOk(env, lane.ledger, c);
      ForgottenPaths(env, lane, lane', env.entries[c.entry].receiver);
    }
  }

  lemma CorrelateLedger(env: Env, desk: Desk, peak: real, allowChallenge: bool)
    ensures SameOrForgotten(env, desk.lane, Correlate(env, desk, peak, allowChallenge).0.lane)
  {
    var sole := TheOnly(Candidates(env.users, env.active));
    var loud := peak >= LOUD_PEAK;
    if Correlate(env, desk, peak, allowChallenge).1 == Rebind {
      var reg := ExpireClaim(env, desk.registry, sole.value);
      ChallengeResult(env, Desk(reg, Observe(env, desk.lane, sole, loud)), sole.value, loud);
    }
  }

  lemma DeliverPaths(env: Env, desk: Desk, e: EntryId, samples: seq<real>, peak: real, allowChallenge: bool)
    requires PathsOk(env, desk.lane) && e in env.entries
    requires env.entries[e].path == A.Encoded ==> A.CanPublish(desk.lane.ledger, env.entries[e].receiver)
    ensures PathsOk(env, Deliver(env, desk, e, samples, peak, allowChallenge).lane)
  {
    var (correlated, decision) := Correlate(env, desk, peak, allowChallenge);
    CorrelateLedger(env, desk, peak, allowChallenge);
    CorrelateHolding(env, desk, peak, allowChallenge);
    ForgottenKeepsPaths(env, desk.lane, correlated.lane);
    if env.entries[e].path == A.Encoded {
      A.EncodedOwnerJustified(desk.lane.ledger, env.entries[e].receiver, env.now);
      ForgottenPaths(env, desk.lane, correlated.lane, env.entries[e].receiver);
    }
    FollowPaths(env, correlated.lane, e, samples, decision);
  }

  lemma FollowPaths(env: Env, lane: Lane, e: EntryId, samples: seq<real>, decision: Decision)
    requires PathsOk(env, lane) && ChunkOk(env, lane.ledger, Chunk(e, samples))
    requires decision == Send ==> lane.challengeAudio == []
    ensures PathsOk(env, Follow(env, lane, e, samples, decision))
  {
    var rs := if env.entries[e].path == A.Encoded then {env.entries[e].receiver} else {};
    match decision
    case Drop =>
    case Hold => HoldPaths(env, lane, e, samples);
    case Send =>
      PushPaths(env, lane, e, samples, rs);
      PushKeeps(env, lane, e, samples);
    case Rebind =>
      FlushPaths(env, lane, rs);
      FlushKeeps(env, lane);
      PushPaths(env, FlushChallenge(env, lane), e, samples, rs);
      PushKeeps(env, FlushChallenge(env, lane), e, samples);
  }

  lemma HoldPaths(env: Env, lane: Lane, e: EntryId, samples: seq<real>)
    requires PathsOk(env, lane) && ChunkOk(env, lane.ledger, Chunk(e, samples))
    ensures PathsOk(env, HoldPcm(lane, e, samples))
  {
    var audio := lane.challengeAudio + [Chunk(e, samples)];
    TrimIsSuffix(audio, lane.challengeSamples + |samples|);
    forall c | c in HoldPcm(lane, e, samples).challengeAudio ensures ChunkOk(env, lane.ledger, c) {
      assert c in lane.challengeAudio || c == Chunk(e, samples);
    }
  }

  lemma {:induction false} TrimIsSuffix(audio: seq<Chunk>, total: int)
    ensures forall c | c in TrimChallenge(audio, total).0 :: c in audio
    decreases |audio|
  {
    if total > CHALLENGE_SAMPLES && |audio| > 1 {
      TrimIsSuffix(audio[1..], total - |audio[0].samples|);
    }
  }

  lemma UpdatePaths(env: Env, desk: Desk)
    requires PathsOk(env, desk.lane)
    ensures PathsOk(env, UpdateRoute(env, desk).lane)
  {
    var read := ReadProtocol(env, desk.lane);
    var moved := AssignDevice(env, Desk(desk.registry, Resolved(desk.lane, read)), Resolve(read).deviceId);
    var announced := Announce(env, moved.lane);
    ForgottenKeepsPaths(env, desk.lane, announced);
    FlushPaths(env, announced.(vote := None), {});
  }

  lemma FramePaths(env: Env, lane: Lane, receiver: Receiver, audible: bool, candidate: bool, native: Option<EntryId>)
    requires PathsOk(env, lane)
    ensures PathsOk(env, ReceiveFrame(env, lane, receiver, audible, candidate, native))
  {
    var lane' := ReceiveFrame(env, lane, receiver, audible, candidate, native);
    A.DecideOk(lane.ledger, receiver, audible, candidate, env.now);
    forall c | c in lane'.challengeAudio ensures ChunkOk(env, lane'.ledger, c) {
      assert ChunkOk(env, lane.ledger, c);
      if env.entries[c.entry].path == A.Encoded {
        A.JustifiedGrows(lane.ledger.log, A.Frame(receiver, env.now, audible, candidate), env.entries[c.entry].receiver);
      }
    }
  }
}
