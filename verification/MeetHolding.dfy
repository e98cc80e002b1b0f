/** The challenge buffer: the longest recent suffix of what was held, replayed in order. */
module MeetHolding {
  import opened Wrappers
  import opened CapturePolicy
  import opened MeetState
  import opened MeetFacts

  /** The samples of the chunks from `n` on. */
  function Total(chunks: seq<Chunk>, n: nat): nat
    requires n <= |chunks|
    decreases |chunks| - n
  {
    if n == |chunks| then 0 else |chunks[n].samples| + Total(chunks, n + 1)
  }

  /** `n` is where the longest suffix of at most 16000 samples begins, or the last chunk alone. */
  predicate LongestFrom(held: seq<Chunk>, n: nat) {
    && n <= |held|
    && (held != [] ==> n < |held|)
    && (Total(held, n) <= CHALLENGE_SAMPLES || n + 1 == |held|)
    && forall m | 0 <= m < n :: Total(held, m) > CHALLENGE_SAMPLES
  }

  /** The search for that place, from `n` on. */
  function LongestStart(held: seq<Chunk>, n: nat): (k: nat)
    requires n <= |held|
    ensures k <= |held|
    decreases |held| - n
  {
    if n + 1 < |held| && Total(held, n) > CHALLENGE_SAMPLES then LongestStart(held, n + 1) else n
  }

  lemma {:induction false} LongestStartIs(held: seq<Chunk>, n: nat)
    requires n <= |held| && (held != [] ==> n < |held|)
    requires forall m | 0 <= m < n :: Total(held, m) > CHALLENGE_SAMPLES
    ensures LongestFrom(held, LongestStart(held, n))
    decreases |held| - n
  {
    if n + 1 < |held| && Total(held, n) > CHALLENGE_SAMPLES {
      LongestStartIs(held, n + 1);
    }
  }

  /** The buffer is the longest such suffix of what was held, and its count is exact. */
  predicate KeepsLongest(lane: Lane) {
    && (exists n :: 0 <= n <= |lane.history.held| && LongestFrom(lane.history.held, n)
                 && lane.challengeAudio == lane.history.held[n..])
    && lane.challengeSamples == Total(lane.challengeAudio, 0)
  }

  /** At most one position qualifies, so the buffer is determined by what was held. */
  lemma LongestIsUnique(held: seq<Chunk>, m: nat, n: nat)
    requires LongestFrom(held, m) && LongestFrom(held, n)
    ensures m == n
  {
  }

  lemma {:induction false} TotalAppends(chunks: seq<Chunk>, c: Chunk, n: nat)
    requires n <= |chunks|
    ensures Total(chunks + [c], n) == Total(chunks, n) + |c.samples|
    decreases |chunks| - n
  {
    if n < |chunks| {
      TotalAppends(chunks, c, n + 1);
    }
  }

  lemma {:induction false} TotalOfSuffix(chunks: seq<Chunk>, n: nat, k: nat)
    requires n + k <= |chunks|
    ensures Total(chunks[n..], k) == Total(chunks, n + k)
    decreases |chunks| - k
  {
    if n + k < |chunks| {
      TotalOfSuffix(chunks, n, k + 1);
    }
  }

  lemma {:induction false} TrimFindsLongest(held: seq<Chunk>, n: nat)
    requires n < |held|
    requires forall m | 0 <= m < n :: Total(held, m) > CHALLENGE_SAMPLES
    ensures var k := LongestStart(held, n);
            TrimChallenge(held[n..], Total(held, n)) == (held[k..], Total(held, k))
    decreases |held| - n
  {
    if Total(held, n) > CHALLENGE_SAMPLES && n + 1 < |held| {
      assert held[n..][1..] == held[n + 1..];
      TrimFindsLongest(held, n + 1);
    }
  }

  /** One more chunk, and the trimming that follows it. */
  lemma AppendFindsLongest(held: seq<Chunk>, n: nat, chunk: Chunk) returns (k: nat)
    requires LongestFrom(held, n)
    ensures LongestFrom(held + [chunk], k)
    ensures TrimChallenge(held[n..] + [chunk], Total(held[n..], 0) + |chunk.samples|) ==
            ((held + [chunk])[k..], Total((held + [chunk])[k..], 0))
  {
    var held' := held + [chunk];
    forall m | 0 <= m < n ensures Total(held', m) > CHALLENGE_SAMPLES {
      TotalAppends(held, chunk, m);
    }
    TotalAppends(held, chunk, n);
    TotalOfSuffix(held, n, 0);
    k := LongestStart(held', n);
    LongestStartIs(held', n);
    assert held[n..] + [chunk] == held'[n..];
    TrimFindsLongest(held', n);
    TotalOfSuffix(held', k, 0);
  }

  lemma HoldKeepsLongest(lane: Lane, e: EntryId, samples: seq<real>)
    requires KeepsLongest(lane)
    ensures KeepsLongest(HoldPcm(lane, e, samples))
  {
    var held := lane.history.held;
    var n :| 0 <= n <= |held| && LongestFrom(held, n) && lane.challengeAudio == held[n..];
    var k := AppendFindsLongest(held, n, Chunk(e, samples));
    assert LongestFrom(HoldPcm(lane, e, samples).history.held, k);
  }

  /** The challenge is either untouched or begins empty again. */
  predicate SameOrCleared(lane: Lane, lane': Lane) {
    || (lane'.challengeAudio == lane.challengeAudio && lane'.challengeSamples == lane.challengeSamples
        && lane'.history.held == lane.history.held)
    || (lane'.challengeAudio == [] && lane'.challengeSamples == 0 && lane'.history.held == [])
  }

  lemma SameOrClearedKeeps(lane: Lane, lane': Lane)
    requires KeepsLongest(lane) && SameOrCleared(lane, lane')
    ensures KeepsLongest(lane')
  {
    assert LongestFrom([], 0);
  }

  /** Correlating holds nothing by itself; sending means no challenge is left open. */
  lemma CorrelateHolding(env: Env, desk: Desk, peak: real, allowChallenge: bool)
    ensures var (desk', decision) := Correlate(env, desk, peak, allowChallenge);
            && SameOrCleared(desk.lane, desk'.lane)
            && (decision == Send ==> desk'.lane.challengeAudio == [])
  {
    var sole := TheOnly(Candidates(env.users, env.active));
    var loud := peak >= LOUD_PEAK;
    if Correlate(env, desk, peak, allowChallenge).1 == Rebind {
      var reg := ExpireClaim(env, desk.registry, sole.value);
      var lane := Observe(env, desk.lane, sole, loud);
      ChallengeResult(env, Desk(reg, lane), sole.value, loud);
      var voted := lane.(vote := Some(NextIdentityVote(lane.vote, sole.value, env.now)));
      RebindHolding(env, Desk(reg, voted), sole.value);
    }
  }

  lemma RebindHolding(env: Env, desk: Desk, candidate: DeviceId)
    ensures var lane' := RebindRoute(env, desk, candidate).lane;
            lane'.challengeAudio == desk.lane.challengeAudio
            && lane'.challengeSamples == desk.lane.challengeSamples && lane'.history.held == desk.lane.history.held
  {
  }

  lemma DeliverHolding(env: Env, desk: Desk, e: EntryId, samples: seq<real>, peak: real, allowChallenge: bool)
    requires KeepsLongest(desk.lane)
    ensures KeepsLongest(Deliver(env, desk, e, samples, peak, allowChallenge).lane)
  {
    CorrelateHolding(env, desk, peak, allowChallenge);
    var (correlated, decision) := Correlate(env, desk, peak, allowChallenge);
    var lane := correlated.lane;
    SameOrClearedKeeps(desk.lane, lane);
    HoldKeepsLongest(lane, e, samples);
    PushKeeps(env, lane, e, samples);
    FlushKeeps(env, lane);
    PushKeeps(env, FlushChallenge(env, lane), e, samples);
    SameOrClearedKeeps(lane, FlushChallenge(env, lane));
  }

  lemma UpdateHolding(env: Env, desk: Desk)
    requires KeepsLongest(desk.lane)
    ensures KeepsLongest(UpdateRoute(env, desk).lane)
  {
    var read := ReadProtocol(env, desk.lane);
    var moved := AssignDevice(env, Desk(desk.registry, Resolved(desk.lane, read)), Resolve(read).deviceId);
    var announced := Announce(env, moved.lane);
    FlushKeeps(env, announced.(vote := None));
    SameOrClearedKeeps(desk.lane, UpdateRoute(env, desk).lane);
  }

  lemma {:induction false} PushChunksAppends(env: Env, lane: Lane, chunks: seq<Chunk>, last: Chunk)
    ensures PushChunks(env, lane, chunks + [last]) ==
            PushPcm(env, PushChunks(env, lane, chunks), last.entry, last.samples)
    decreases |chunks|
  {
    if chunks == [] {
      assert chunks + [last] == [last];
    } else {
      assert (chunks + [last])[1..] == chunks[1..] + [last];
      PushChunksAppends(env, PushPcm(env, lane, chunks[0].entry, chunks[0].samples), chunks[1..], last);
    }
  }

  /** A rebind replays the held audio in the order it was held, and the triggering chunk last. */
  lemma RebindReplaysInOrder(env: Env, desk: Desk, e: EntryId, samples: seq<real>, peak: real, allowChallenge: bool)
    requires KeepsLongest(desk.lane)
    requires Correlate(env, desk, peak, allowChallenge).1 == Rebind
    ensures var rebound := Correlate(env, desk, peak, allowChallenge).0.lane;
            && KeepsLongest(rebound)
            && Deliver(env, desk, e, samples, peak, allowChallenge).lane ==
               PushChunks(env, Replayed(rebound), rebound.challengeAudio + [Chunk(e, samples)])
  {
    CorrelateHolding(env, desk, peak, allowChallenge);
    var rebound := Correlate(env, desk, peak, allowChallenge).0.lane;
    SameOrClearedKeeps(desk.lane, rebound);
    PushChunksAppends(env, Replayed(rebound), rebound.challengeAudio, Chunk(e, samples));
  }
}
