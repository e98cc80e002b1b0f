/**
 PCM framing. The reference split cuts a stream into blocks of 2048 samples; the
 worklet of `browser-extension/src/pcm-worklet.js` and the track-processor loop of
 `browser-extension/src/page-capture.js` are both proved against it.
 */
module PcmFraming {
  const BLOCK: nat := 2048
  const PEAK_THRESHOLD: real := 0.0005

  function Abs(x: real): real {
    if x < 0.0 then -x else x
  }

  function Max(x: real, y: real): real {
    if x >= y then x else y
  }

  /** The peak of a block, folded from its first sample on. */
  function Peak(samples: seq<real>): real {
    if samples == [] then 0.0
    else Max(Peak(samples[..|samples| - 1]), Abs(samples[|samples| - 1]))
  }

  /** The complete blocks of a stream, in order. */
  function Blocks<T>(stream: seq<T>): seq<seq<T>> {
    if |stream| < BLOCK then [] else [stream[..BLOCK]] + Blocks(stream[BLOCK..])
  }

  /** The samples behind the last complete block. */
  function Residue<T>(stream: seq<T>): (rest: seq<T>)
    ensures |rest| < BLOCK
  {
    if |stream| < BLOCK then stream else Residue(stream[BLOCK..])
  }

  function Loud(blocks: seq<seq<real>>): seq<seq<real>> {
    if blocks == [] then []
    else Loud(blocks[..|blocks| - 1]) +
         (if Peak(blocks[|blocks| - 1]) >= PEAK_THRESHOLD then [blocks[|blocks| - 1]] else [])
  }

  /** What either framing loop may post for a stream. */
  function Emitted(stream: seq<real>): seq<seq<real>> {
    Loud(Blocks(stream))
  }

  function Concat<T>(chunks: seq<seq<T>>): seq<T> {
    if chunks == [] then [] else chunks[0] + Concat(chunks[1..])
  }

  /** The split loses, repeats and reorders nothing: its parts are the stream again. */
  lemma {:induction false} SplitIsLossless<T>(stream: seq<T>)
    ensures Concat(Blocks(stream)) + Residue(stream) == stream
    decreases |stream|
  {
    if |stream| >= BLOCK {
      var block, rest := stream[..BLOCK], stream[BLOCK..];
      SplitIsLossless(rest);
      assert Concat([block] + Blocks(rest)) == block + Concat(Blocks(rest)) by {
        assert ([block] + Blocks(rest))[1..] == Blocks(rest);
      }
      assert block + Concat(Blocks(rest)) + Residue(rest) == block + (Concat(Blocks(rest)) + Residue(rest));
    }
  }

  /** Every block is full. */
  lemma {:induction false} BlocksAreFull<T>(stream: seq<T>)
    ensures |stream| == |Blocks(stream)| * BLOCK + |Residue(stream)|
    ensures forall b | b in Blocks(stream) :: |b| == BLOCK
    decreases |stream|
  {
    if |stream| >= BLOCK {
      BlocksAreFull(stream[BLOCK..]);
    }
  }

  /** Cutting the input anywhere does not change the blocks: a chunk continues the residue. */
  lemma {:induction false} SplitContinues<T>(heard: seq<T>, chunk: seq<T>)
    ensures Blocks(heard + chunk) == Blocks(heard) + Blocks(Residue(heard) + chunk)
    ensures Residue(heard + chunk) == Residue(Residue(heard) + chunk)
    decreases |heard|
  {
    if |heard| < BLOCK {
    } else {
      SplitContinues(heard[BLOCK..], chunk);
      assert (heard + chunk)[..BLOCK] == heard[..BLOCK];
      assert (heard + chunk)[BLOCK..] == heard[BLOCK..] + chunk;
    }
  }

  lemma {:induction false} LoudDistributes(a: seq<seq<real>>, b: seq<seq<real>>)
    ensures Loud(a + b) == Loud(a) + Loud(b)
    decreases |b|
  {
    if b == [] {
      assert a + b == a;
    } else {
      var front := b[..|b| - 1];
      LoudDistributes(a, front);
      assert (a + b)[..|a + b| - 1] == a + front;
    }
  }

  /** Feeding chunks one by one through a framing loop, each continuing the kept residue. */
  function FrameChunks(residue: seq<real>, chunks: seq<seq<real>>): (seq<seq<real>>, seq<real>)
    decreases |chunks|
  {
    if chunks == [] then ([], residue)
    else
      var fed := residue + chunks[0];
      var (later, kept) := FrameChunks(Residue(fed), chunks[1..]);
      (Emitted(fed) + later, kept)
  }

  /** Whatever the cut, framing chunk by chunk emits the reference split of the whole stream. */
  lemma {:induction false} FramingIgnoresCuts(residue: seq<real>, chunks: seq<seq<real>>)
    requires |residue| < BLOCK
    ensures FrameChunks(residue, chunks) ==
            (Emitted(residue + Concat(chunks)), Residue(residue + Concat(chunks)))
    decreases |chunks|
  {
    if chunks == [] {
      assert residue + Concat(chunks) == residue;
    } else {
      var fed := residue + chunks[0];
      var rest := Concat(chunks[1..]);
      FramingIgnoresCuts(Residue(fed), chunks[1..]);
      assert residue + Concat(chunks) == fed + rest;
      SplitContinues(fed, rest);
      LoudDistributes(Blocks(fed), Blocks(Residue(fed) + rest));
    }
  }

  /** The audio worklet: one in-place buffer, a write offset and a peak kept incrementally. */
  class KualiPcmProcessor {
    var buffer: array<real>
    var offset: nat
    var peak: real
    var posted: seq<seq<real>>
    ghost var heard: seq<real>

    ghost predicate Valid()
      reads this, buffer
    {
      && buffer.Length == BLOCK
      && offset < BLOCK
      && buffer[..offset] == Residue(heard)
      && peak == Peak(Residue(heard))
      && posted == Emitted(heard)
    }

    constructor ()
      ensures Valid() && fresh(buffer)
      ensures heard == [] && posted == []
    {
      buffer := new real[BLOCK];
      offset := 0;
      peak := 0.0;
      posted := [];
      heard := [];
    }

    /** One turn of the loop: copies what fits, and posts and replaces a full buffer. */
    method Absorb(piece: seq<real>)
      requires Valid() && |piece| <= BLOCK - offset
      modifies this, buffer
      ensures Valid() && heard == old(heard) + piece
      ensures buffer == old(buffer) || fresh(buffer)
    {
      ghost var rest := buffer[..offset];
      StreamGrows(heard, piece);
      forall k | 0 <= k < |piece| {
        buffer[offset + k] := piece[k];
      }
      assert buffer[..offset + |piece|] == rest + piece;
      peak := ExtendPeak(peak, rest, piece);
      offset := offset + |piece|;
      heard := heard + piece;
      if offset == BLOCK {
        assert buffer[..] == rest + piece;
        if peak >= PEAK_THRESHOLD {
          posted := posted + [buffer[..]];
        }
        buffer := new real[BLOCK];
        offset := 0;
        peak := 0.0;
      }
    }

    /** Handles one render quantum; every block posted so far is the reference split's. */
    method Process(input: seq<real>)
      requires Valid()
      modifies this, buffer
      ensures Valid()
      ensures heard == old(heard) + input
      ensures posted == old(posted) + Emitted(Residue(old(heard)) + input)
    {
      var at := 0;
      assert heard + input[..0] == heard;
      while at < |input|
        invariant at <= |input|
        invariant Valid()
        invariant heard == old(heard) + input[..at]
        invariant buffer == old(buffer) || fresh(buffer)
      {
        var count := if |input| - at < BLOCK - offset then |input| - at else BLOCK - offset;
        assert input[..at + count] == input[..at] + input[at..at + count];
        Absorb(input[at..at + count]);
        at := at + count;
      }
      assert input[..at] == input;
      SplitContinues(old(heard), input);
      LoudDistributes(Blocks(old(heard)), Blocks(Residue(old(heard)) + input));
    }
  }

  /** The incremental peak of the worklet equals the peak recomputed over the whole buffer. */
  method ExtendPeak(current: real, ghost heard: seq<real>, piece: seq<real>) returns (peak: real)
    requires current == Peak(heard)
    ensures peak == Peak(heard + piece)
  {
    peak := current;
    assert heard + piece[..0] == heard;
    for i := 0 to |piece|
      invariant peak == Peak(heard + piece[..i])
    {
      peak := Max(peak, Abs(piece[i]));
      assert (heard + piece[..i + 1])[..|heard| + i] == heard + piece[..i];
    }
    assert piece[..|piece|] == piece;
  }

  /** A piece that fits behind the residue either extends it or completes one block. */
  lemma StreamGrows(heard: seq<real>, piece: seq<real>)
    requires |Residue(heard)| + |piece| <= BLOCK
    ensures var whole := Residue(heard) + piece;
            if |whole| < BLOCK then
              Residue(heard + piece) == whole && Emitted(heard + piece) == Emitted(heard)
            else
              && Residue(heard + piece) == []
              && Emitted(heard + piece) ==
                 Emitted(heard) + if Peak(whole) >= PEAK_THRESHOLD then [whole] else []
  {
    var whole := Residue(heard) + piece;
    SplitContinues(heard, piece);
    LoudDistributes(Blocks(heard), Blocks(whole));
    if |whole| == BLOCK {
      assert whole[..BLOCK] == whole && whole[BLOCK..] == [];
      assert Blocks(whole) == [whole];
      assert Blocks(whole)[..0] == [];
    }
  }
}
