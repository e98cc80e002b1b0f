/**
 Framing on one lane: the loop over a chunk against the reference split of the stream,
 and the result of any number of chunks against one.
 */
module MeetFraming {
  import opened Wrappers
  import opened MeetFacts
  import opened MeetState
  import opened PcmFraming

  lemma {:induction false} OnBlocksAppends(env: Env, lane: Lane, entry: Entry, e: EntryId,
                                           blocks: seq<seq<Sample>>, last: seq<Sample>)
    ensures OnBlocks(env, lane, entry, e, blocks + [last]) ==
            OnBlock(env, OnBlocks(env, lane, entry, e, blocks), entry, e, last)
    decreases |blocks|
  {
    if blocks == [] {
      assert blocks + [last] == [last];
    } else {
      assert (blocks + [last])[1..] == blocks[1..] + [last];
      OnBlocksAppends(env, OnBlock(env, lane, entry, e, blocks[0]), entry, e, blocks[1..], last);
    }
  }

  /** A piece that fits behind the residue of a stream extends it or completes its next block. */
  lemma StreamFills(stream: seq<Sample>, piece: seq<Sample>)
    requires |Residue(stream)| + |piece| <= BLOCK
    ensures var whole := Residue(stream) + piece;
            if |whole| < BLOCK then Residue(stream + piece) == whole && Blocks(stream + piece) == Blocks(stream)
            else Residue(stream + piece) == [] && Blocks(stream + piece) == Blocks(stream) + [whole]
  {
    var whole := Residue(stream) + piece;
    SplitContinues(stream, piece);
    if |whole| == BLOCK {
      assert whole[..BLOCK] == whole && whole[BLOCK..] == [];
    }
  }

  /** The stream an entry has been fed: what it kept, and the first samples of a chunk. */
  function Fed(first: seq<Sample>, samples: seq<real>, offset: nat, generation: nat): seq<Sample>
    requires offset <= |samples|
  {
    first + Stamp(samples[..offset], generation)
  }

  lemma FedEnds(first: seq<Sample>, samples: seq<real>, generation: nat)
    ensures Fed(first, samples, 0, generation) == first
    ensures Fed(first, samples, |samples|, generation) == first + Stamp(samples, generation)
  {
    assert samples[..|samples|] == samples;
  }

  lemma FramingStep(env: Env, lane: Lane, entry: Entry, e: EntryId, first: seq<Sample>, generation: nat,
                    samples: seq<real>, offset: nat, count: nat)
    requires offset + count <= |samples|
    requires |Residue(Fed(first, samples, offset, generation))| + count <= BLOCK
    ensures var stream, next := Fed(first, samples, offset, generation), Fed(first, samples, offset + count, generation);
            var whole := Residue(stream) + Stamp(samples[offset..offset + count], generation);
            var framed := OnBlocks(env, lane, entry, e, Blocks(stream));
            if |whole| < BLOCK
            then Residue(next) == whole && OnBlocks(env, lane, entry, e, Blocks(next)) == framed
            else Residue(next) == [] && OnBlocks(env, lane, entry, e, Blocks(next)) == OnBlock(env, framed, entry, e, whole)
  {
    var stream := Fed(first, samples, offset, generation);
    var piece := Stamp(samples[offset..offset + count], generation);
    StreamFills(stream, piece);
    assert Fed(first, samples, offset + count, generation) == stream + piece;
    OnBlocksAppends(env, lane, entry, e, Blocks(stream), Residue(stream) + piece);
  }

  /** What the framing loop has done with the first samples of a chunk. */
  predicate Filled(env: Env, present: Lane, entry: Entry, e: EntryId, kept: seq<Sample>, generation: nat,
                   samples: seq<real>, offset: nat, buffer: seq<Sample>, lane: Lane)
    requires offset <= |samples|
  {
    var stream := Fed(kept, samples, offset, generation);
    buffer == Residue(stream) && lane == OnBlocks(env, present, entry, e, Blocks(stream))
  }

  lemma FillStep(env: Env, present: Lane, entry: Entry, e: EntryId, kept: seq<Sample>, generation: nat,
                 samples: seq<real>, offset: nat, count: nat, buffer: seq<Sample>, lane: Lane)
    requires offset + count <= |samples| && |buffer| + count <= BLOCK
    requires Filled(env, present, entry, e, kept, generation, samples, offset, buffer, lane)
    ensures var whole := buffer + Stamp(samples[offset..offset + count], generation);
            if |whole| < BLOCK
            then Filled(env, present, entry, e, kept, generation, samples, offset + count, whole, lane)
            else Filled(env, present, entry, e, kept, generation, samples, offset + count, [],
                        OnBlock(env, lane, entry, e, whole))
  {
    FramingStep(env, present, entry, e, kept, generation, samples, offset, count);
  }

  // ---- However a stream is cut ----

  lemma {:induction false} OnBlocksConcat(env: Env, lane: Lane, entry: Entry, e: EntryId,
                                          first: seq<seq<Sample>>, rest: seq<seq<Sample>>)
    ensures OnBlocks(env, lane, entry, e, first + rest) ==
            OnBlocks(env, OnBlocks(env, lane, entry, e, first), entry, e, rest)
    decreases |rest|
  {
    if rest == [] {
      assert first + rest == first;
    } else {
      var n := |rest| - 1;
      OnBlocksConcat(env, lane, entry, e, first, rest[..n]);
      assert first + rest == (first + rest[..n]) + [rest[n]] && rest == rest[..n] + [rest[n]];
      OnBlocksAppends(env, lane, entry, e, first + rest[..n], rest[n]);
      OnBlocksAppends(env, OnBlocks(env, lane, entry, e, first), entry, e, rest[..n], rest[n]);
    }
  }

  function WithBuffer(lane: Lane, e: EntryId, buffer: Buffer): Lane {
    if e in lane.buffers then lane.(buffers := lane.buffers[e := buffer]) else lane
  }

  lemma AcceptIgnoresBuffer(env: Env, lane: Lane, entry: Entry, e: EntryId, buffer: Buffer)
    ensures AcceptBlock(env, WithBuffer(lane, e, buffer), entry, e) ==
            WithBuffer(AcceptBlock(env, lane, entry, e), e, buffer)
  {
    assert AcceptBlock(env, WithBuffer(lane, e, buffer), entry, e).buffers ==
           WithBuffer(AcceptBlock(env, lane, entry, e), e, buffer).buffers;
  }

  lemma PostIgnoresBuffer(env: Env, lane: Lane, e: EntryId, block: seq<Sample>, buffer: Buffer)
    ensures PutFrame(Announce(env, WithBuffer(lane, e, buffer)), block) ==
            WithBuffer(PutFrame(Announce(env, lane), block), e, buffer)
  {
  }

  lemma OnBlockIgnoresBuffer(env: Env, lane: Lane, entry: Entry, e: EntryId, block: seq<Sample>, buffer: Buffer)
    ensures OnBlock(env, WithBuffer(lane, e, buffer), entry, e, block) ==
            WithBuffer(OnBlock(env, lane, entry, e, block), e, buffer)
  {
    AcceptIgnoresBuffer(env, lane, entry, e, buffer);
    PostIgnoresBuffer(env, AcceptBlock(env, lane, entry, e), e, block, buffer);
  }

  /** Publishing never reads what an entry's buffer holds. */
  lemma {:induction false} OnBlocksIgnoreBuffer(env: Env, lane: Lane, entry: Entry, e: EntryId,
                                                blocks: seq<seq<Sample>>, buffer: Buffer)
    ensures OnBlocks(env, WithBuffer(lane, e, buffer), entry, e, blocks) ==
            WithBuffer(OnBlocks(env, lane, entry, e, blocks), e, buffer)
    decreases |blocks|
  {
    if blocks != [] {
      OnBlockIgnoresBuffer(env, lane, entry, e, blocks[0], buffer);
      OnBlocksIgnoreBuffer(env, OnBlock(env, lane, entry, e, blocks[0]), entry, e, blocks[1..], buffer);
    }
  }

  /** A push is its blocks, and then the residue in place of the buffer if that is still there. */
  lemma PushedBy(env: Env, lane: Lane, e: EntryId, samples: seq<real>)
    requires env.running && e in env.entries
    ensures var stream := BufferOf(lane, e) + Stamp(samples, lane.route.generation);
            var present := lane.(buffers := lane.buffers[e := BufferOf(lane, e)]);
            PushPcm(env, lane, e, samples) ==
            WithBuffer(OnBlocks(env, present, env.entries[e], e, Blocks(stream)), e, Residue(stream))
  {
  }

  /** The blocks of a continued stream, framed from where the first part left off. */
  lemma FramedOn(env: Env, present: Lane, entry: Entry, e: EntryId, first: seq<Sample>, rest: seq<Sample>)
    ensures var framed, next := OnBlocks(env, present, entry, e, Blocks(first)), Residue(first) + rest;
            WithBuffer(OnBlocks(env, WithBuffer(framed, e, Residue(first)), entry, e, Blocks(next)), e, Residue(next)) ==
            WithBuffer(OnBlocks(env, present, entry, e, Blocks(first + rest)), e, Residue(first + rest))
  {
    var framed, next := OnBlocks(env, present, entry, e, Blocks(first)), Residue(first) + rest;
    SplitContinues(first, rest);
    OnBlocksConcat(env, present, entry, e, Blocks(first), Blocks(next));
    OnBlocksIgnoreBuffer(env, framed, entry, e, Blocks(next), Residue(first));
    StoredTwice(OnBlocks(env, framed, entry, e, Blocks(next)), e, Residue(first), Residue(next));
  }

  lemma StoredTwice(lane: Lane, e: EntryId, a: Buffer, b: Buffer)
    ensures WithBuffer(WithBuffer(lane, e, a), e, b) == WithBuffer(lane, e, b)
  {
  }

  /** Two chunks of an entry whose buffer is not deleted in between are one chunk. */
  lemma PushingTwice(env: Env, lane: Lane, e: EntryId, a: seq<real>, b: seq<real>)
    requires env.running && e in env.entries && e in PushPcm(env, lane, e, a).buffers
    ensures PushPcm(env, PushPcm(env, lane, e, a), e, b) == PushPcm(env, lane, e, a + b)
  {
    var generation, pushed := lane.route.generation, PushPcm(env, lane, e, a);
    var first, rest := BufferOf(lane, e) + Stamp(a, generation), Stamp(b, generation);
    PushedBy(env, lane, e, a);
    PushedBy(env, lane, e, a + b);
    PushedBy(env, pushed, e, b);
    PushKeeps(env, lane, e, a);
    assert BufferOf(lane, e) + Stamp(a + b, generation) == first + rest;
    FramedOn(env, lane.(buffers := lane.buffers[e := BufferOf(lane, e)]), env.entries[e], e, first, rest);
    assert pushed.(buffers := pushed.buffers[e := BufferOf(pushed, e)]) == pushed;
  }

  function PushAll(env: Env, lane: Lane, e: EntryId, chunks: seq<seq<real>>): Lane
    decreases |chunks|
  {
    if chunks == [] then lane
    else PushPcm(env, PushAll(env, lane, e, chunks[..|chunks| - 1]), e, chunks[|chunks| - 1])
  }

  /** The entry's buffer is there after every chunk but perhaps the last. */
  predicate NeverDeleted(env: Env, lane: Lane, e: EntryId, chunks: seq<seq<real>>) {
    forall k | 0 < k < |chunks| :: e in PushAll(env, lane, e, chunks[..k]).buffers
  }

  lemma {:induction false} ConcatGrows<T>(chunks: seq<seq<T>>, last: seq<T>)
    ensures Concat(chunks + [last]) == Concat(chunks) + last
    decreases |chunks|
  {
    if chunks == [] {
      assert [last][1..] == [] && [] + [last] == [last];
    } else {
      assert (chunks + [last])[1..] == chunks[1..] + [last];
      ConcatGrows(chunks[1..], last);
    }
  }

  lemma OneMoreChunk(env: Env, lane: Lane, e: EntryId, front: seq<seq<real>>, last: seq<real>)
    requires env.running && e in env.entries && e in PushAll(env, lane, e, front).buffers
    requires PushAll(env, lane, e, front) == PushPcm(env, lane, e, Concat(front))
    ensures PushAll(env, lane, e, front + [last]) == PushPcm(env, lane, e, Concat(front + [last]))
  {
    assert (front + [last])[..|front|] == front;
    PushingTwice(env, lane, e, Concat(front), last);
    ConcatGrows(front, last);
  }

  lemma OneChunk(env: Env, lane: Lane, e: EntryId, chunk: seq<real>)
    ensures PushAll(env, lane, e, [chunk]) == PushPcm(env, lane, e, Concat([chunk]))
  {
    assert PushAll(env, lane, e, [chunk][..0]) == lane;
    assert [chunk][1..] == [] && chunk + [] == chunk;
  }

  lemma FrontNeverDeleted(env: Env, lane: Lane, e: EntryId, chunks: seq<seq<real>>)
    requires |chunks| > 1 && NeverDeleted(env, lane, e, chunks)
    ensures var front := chunks[..|chunks| - 1];
            NeverDeleted(env, lane, e, front) && e in PushAll(env, lane, e, front).buffers
  {
    var front := chunks[..|chunks| - 1];
    forall k | 0 < k < |front| ensures e in PushAll(env, lane, e, front[..k]).buffers {
      assert front[..k] == chunks[..k];
    }
  }

  /** However the samples are cut between two deletions of the buffer, the lane is the same. */
  lemma {:induction false} PushingIgnoresCuts(env: Env, lane: Lane, e: EntryId, chunks: seq<seq<real>>)
    requires env.running && e in env.entries && chunks != [] && NeverDeleted(env, lane, e, chunks)
    ensures PushAll(env, lane, e, chunks) == PushPcm(env, lane, e, Concat(chunks))
    decreases |chunks|
  {
    var n := |chunks| - 1;
    if n == 0 {
      assert chunks == [chunks[0]];
      OneChunk(env, lane, e, chunks[0]);
    } else {
      var front := chunks[..n];
      FrontNeverDeleted(env, lane, e, chunks);
      PushingIgnoresCuts(env, lane, e, front);
      assert chunks == front + [chunks[n]];
      OneMoreChunk(env, lane, e, front, chunks[n]);
    }
  }
}
