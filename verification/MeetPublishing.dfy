/**
 What publishing a chunk adds: every full block whose peak reaches the threshold goes out on
 the channel of an owned route, behind what waited there, or waits for an owner.
 */
module MeetPublishing {
  import opened Wrappers
  import opened MeetState
  import opened MeetFacts
  import opened PcmFraming
  import A = PcmArbitration

  predicate IsAudible(block: seq<Sample>) {
    Peak(Levels(block)) >= PEAK_THRESHOLD
  }

  /** The audible ones of some blocks, in order. */
  function Audible(blocks: seq<seq<Sample>>): (loud: seq<seq<Sample>>)
    ensures forall b | b in loud :: IsAudible(b)
    ensures forall b | b in blocks && IsAudible(b) :: b in loud
  {
    if blocks == [] then []
    else (if IsAudible(blocks[0]) then [blocks[0]] else []) + Audible(blocks[1..])
  }

  /** The entry may publish on the lane now: it is live, a microphone is open, and no other holds the source. */
  predicate MayPublish(env: Env, lane: Lane, entry: Entry) {
    && !entry.released && (lane.route.channel == MIC_CHANNEL ==> env.micOpen)
    && A.Claimable(lane.ledger, entry.receiver, entry.path, env.now)
  }

  function Latest(blocks: seq<seq<Sample>>, limit: nat): seq<seq<Sample>> {
    if |blocks| > limit then blocks[|blocks| - limit..] else blocks
  }

  function Limit(lane: Lane): nat {
    if |lane.pendingAudio| > PENDING_FRAMES then |lane.pendingAudio| else PENDING_FRAMES
  }

  function Accepted(env: Env, entry: Entry, count: nat): seq<A.Event> {
    seq(count, i => A.Block(entry.receiver, env.now, entry.path))
  }

  /** Exactly these blocks were accepted: posted if the route is owned, behind what waited, or else waiting. */
  predicate Published(env: Env, lane: Lane, lane': Lane, entry: Entry, loud: seq<seq<Sample>>) {
    && lane'.route == lane.route
    && lane'.ledger.log == lane.ledger.log + Accepted(env, entry, |loud|)
    && if lane.route.deviceId == NO_DEVICE then
         lane'.posted == lane.posted && lane'.pendingAudio == Latest(lane.pendingAudio + loud, Limit(lane))
       else if loud == [] then
         lane'.posted == lane.posted && lane'.pendingAudio == lane.pendingAudio
       else
         lane'.posted == lane.posted + OnChannel(lane.pendingAudio + loud, lane.route.channel) && lane'.pendingAudio == []
  }

  lemma NothingPublished(env: Env, lane: Lane, entry: Entry)
    ensures Published(env, lane, lane, entry, [])
  {
    assert lane.pendingAudio + [] == lane.pendingAudio;
    assert lane.ledger.log + Accepted(env, entry, 0) == lane.ledger.log;
  }

  lemma OneAccepted(env: Env, lane: Lane, entry: Entry)
    ensures A.Accept(lane.ledger, entry.receiver, entry.path, env.now).log == lane.ledger.log + Accepted(env, entry, 1)
    ensures A.Claimable(A.Accept(lane.ledger, entry.receiver, entry.path, env.now), entry.receiver, entry.path, env.now)
  {
    assert Accepted(env, entry, 1) == [A.Block(entry.receiver, env.now, entry.path)];
  }

  lemma OneChannel(pending: seq<seq<Sample>>, block: seq<Sample>, channel: Channel)
    ensures OnChannel(pending + [block], channel) == OnChannel(pending, channel) + [Audio(channel, block)]
  {
  }

  /** One audible block that may be published. */
  lemma BlockPublishes(env: Env, lane: Lane, entry: Entry, e: EntryId, block: seq<Sample>)
    requires env.running && MayPublish(env, lane, entry) && IsAudible(block)
    ensures var lane' := OnBlock(env, lane, entry, e, block);
            Published(env, lane, lane', entry, [block]) && MayPublish(env, lane', entry)
  {
    OneAccepted(env, lane, entry);
    OneChannel(lane.pendingAudio, block, lane.route.channel);
    assert OnChannel([], lane.route.channel) == [];
  }

  lemma AcceptedJoins(env: Env, entry: Entry, m: nat, n: nat)
    ensures Accepted(env, entry, m) + Accepted(env, entry, n) == Accepted(env, entry, m + n)
  {
  }

  lemma ChannelJoins(a: seq<seq<Sample>>, b: seq<seq<Sample>>, channel: Channel)
    ensures OnChannel(a + b, channel) == OnChannel(a, channel) + OnChannel(b, channel)
  {
  }

  lemma LatestJoins(a: seq<seq<Sample>>, b: seq<seq<Sample>>, c: seq<seq<Sample>>, limit: nat)
    ensures Latest(Latest(a + b, limit) + c, limit) == Latest(a + (b + c), limit)
  {
    var front := a + b;
    assert front + c == a + (b + c);
    LatestAgain(front, c, limit);
  }

  /** What an earlier cut took away a later one would take away too. */
  lemma LatestAgain(front: seq<seq<Sample>>, c: seq<seq<Sample>>, limit: nat)
    ensures Latest(Latest(front, limit) + c, limit) == Latest(front + c, limit)
  {
    if |front| > limit {
      var n := |front| - limit;
      LatestIs(front, n, limit);
      LatestIs(front[n..] + c, |c|, limit);
      LatestIs(front + c, n + |c|, limit);
      DropJoins(front, c, n, |c|);
    }
  }

  lemma DropJoins<T>(s: seq<T>, t: seq<T>, n: nat, k: nat)
    requires n <= |s| && n + k <= |s| + |t|
    ensures (s[n..] + t)[k..] == (s + t)[n + k..]
  {
    assert s[n..] + t == (s + t)[n..];
    DropTwice(s + t, n, k);
  }

  lemma LatestIs(blocks: seq<seq<Sample>>, n: nat, limit: nat)
    requires |blocks| == n + limit
    ensures Latest(blocks, limit) == blocks[n..]
  {
  }

  lemma DropTwice<T>(s: seq<T>, n: nat, k: nat)
    requires n + k <= |s|
    ensures s[n..][k..] == s[n + k..]
  {
  }

  lemma PublishedJoins(env: Env, a: Lane, b: Lane, c: Lane, entry: Entry, first: seq<seq<Sample>>, rest: seq<seq<Sample>>)
    requires Published(env, a, b, entry, first) && Published(env, b, c, entry, rest)
    ensures Published(env, a, c, entry, first + rest)
  {
    AcceptedJoins(env, entry, |first|, |rest|);
    assert c.ledger.log == a.ledger.log + (Accepted(env, entry, |first|) + Accepted(env, entry, |rest|));
    if a.route.deviceId == NO_DEVICE {
      LatestJoins(a.pendingAudio, first, rest, Limit(a));
    } else if first == [] {
      assert first + rest == rest;
    } else if rest == [] {
      assert first + rest == first;
    } else {
      assert [] + rest == rest;
      ChannelJoins(a.pendingAudio + first, rest, a.route.channel);
      assert a.pendingAudio + first + rest == a.pendingAudio + (first + rest);
    }
  }

  lemma {:induction false} BlocksPublish(env: Env, lane: Lane, entry: Entry, e: EntryId, blocks: seq<seq<Sample>>)
    requires env.running && MayPublish(env, lane, entry)
    ensures Published(env, lane, OnBlocks(env, lane, entry, e, blocks), entry, Audible(blocks))
    decreases |blocks|
  {
    if blocks == [] {
      NothingPublished(env, lane, entry);
    } else if IsAudible(blocks[0]) {
      var next := OnBlock(env, lane, entry, e, blocks[0]);
      BlockPublishes(env, lane, entry, e, blocks[0]);
      BlocksPublish(env, next, entry, e, blocks[1..]);
      PublishedJoins(env, lane, next, OnBlocks(env, next, entry, e, blocks[1..]), entry, [blocks[0]], Audible(blocks[1..]));
    } else {
      BlocksPublish(env, lane, entry, e, blocks[1..]);
      assert Audible(blocks) == Audible(blocks[1..]);
    }
  }

  lemma {:induction false} BlocksRejected(env: Env, lane: Lane, entry: Entry, e: EntryId, blocks: seq<seq<Sample>>)
    requires !MayPublish(env, lane, entry)
    ensures OnBlocks(env, lane, entry, e, blocks) == lane
    decreases |blocks|
  {
    if blocks != [] {
      BlocksRejected(env, lane, entry, e, blocks[1..]);
    }
  }

  /** The samples of the entry that are framed with this chunk. */
  function Stream(lane: Lane, e: EntryId, samples: seq<real>): seq<Sample> {
    BufferOf(lane, e) + Stamp(samples, lane.route.generation)
  }

  /**
   A pushed chunk publishes exactly the audible full blocks of its stream, if its entry may
   publish, and otherwise nothing.
   */
  lemma PushPublishesExactly(env: Env, lane: Lane, e: EntryId, samples: seq<real>)
    requires env.running && e in env.entries
    ensures Published(env, lane, PushPcm(env, lane, e, samples), env.entries[e],
              if MayPublish(env, lane, env.entries[e]) then Audible(Blocks(Stream(lane, e, samples))) else [])
  {
    var present := lane.(buffers := lane.buffers[e := BufferOf(lane, e)]);
    var blocks := Blocks(Stream(lane, e, samples));
    if MayPublish(env, lane, env.entries[e]) {
      BlocksPublish(env, present, env.entries[e], e, blocks);
    } else {
      BlocksRejected(env, present, env.entries[e], e, blocks);
      NothingPublished(env, lane, env.entries[e]);
    }
  }

  // ---- What stays in the buffers ----

  /** The lane after the first block of these that is accepted keeps of each buffer all or nothing. */
  predicate BuffersKept(env: Env, lane: Lane, lane': Lane, entry: Entry, e: EntryId, any: bool) {
    lane'.buffers == if entry.path == A.Native && any
      then map k | k in lane.buffers && !DroppedByNative(env, lane, entry.receiver, e, k) :: lane.buffers[k]
      else lane.buffers
  }

  /** Once a native block was accepted, the encoded path owns nothing of the receiver any more. */
  lemma {:induction false} MoreKeepBuffers(env: Env, lane: Lane, entry: Entry, e: EntryId, blocks: seq<seq<Sample>>)
    requires entry.path == A.Native ==>
               && !A.CanPublish(lane.ledger, entry.receiver)
               && forall k | k in lane.buffers :: !(LiveTap(env, k) && env.entries[k].receiver == entry.receiver)
    ensures OnBlocks(env, lane, entry, e, blocks).buffers == lane.buffers
    decreases |blocks|
  {
    if blocks != [] {
      var next := OnBlock(env, lane, entry, e, blocks[0]);
      assert next.buffers == lane.buffers;
      MoreKeepBuffers(env, next, entry, e, blocks[1..]);
    }
  }

  lemma {:induction false} BlocksKeepBuffers(env: Env, lane: Lane, entry: Entry, e: EntryId, blocks: seq<seq<Sample>>)
    requires MayPublish(env, lane, entry)
    ensures BuffersKept(env, lane, OnBlocks(env, lane, entry, e, blocks), entry, e, Audible(blocks) != [])
    decreases |blocks|
  {
    if blocks != [] {
      if IsAudible(blocks[0]) {
        MoreKeepBuffers(env, OnBlock(env, lane, entry, e, blocks[0]), entry, e, blocks[1..]);
      } else {
        BlocksKeepBuffers(env, lane, entry, e, blocks[1..]);
      }
    }
  }

  /** The rest of the stream stays in the buffer, unless a native block of it ended an encoded spell. */
  lemma PushKeepsResidue(env: Env, lane: Lane, e: EntryId, samples: seq<real>)
    requires env.running && e in env.entries
    ensures var lane', entry, blocks := PushPcm(env, lane, e, samples), env.entries[e], Blocks(Stream(lane, e, samples));
            if && entry.path == A.Native && A.CanPublish(lane.ledger, entry.receiver)
               && MayPublish(env, lane, entry) && Audible(blocks) != []
            then e !in lane'.buffers
            else e in lane'.buffers && lane'.buffers[e] == Residue(Stream(lane, e, samples))
  {
    var present := lane.(buffers := lane.buffers[e := BufferOf(lane, e)]);
    var blocks := Blocks(Stream(lane, e, samples));
    if MayPublish(env, lane, env.entries[e]) {
      BlocksKeepBuffers(env, present, env.entries[e], e, blocks);
    } else {
      BlocksRejected(env, present, env.entries[e], e, blocks);
    }
  }
}
