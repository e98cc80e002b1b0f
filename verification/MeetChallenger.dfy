/**
 A challenger that is heard alone and loudly wins its source, at the very chunk that
 completes six votes over 250 ms; and the run in which one wins a device that another
 source confirmed less than 750 ms before and never lost.
 */
module MeetChallenger {
  import opened Wrappers
  import opened CapturePolicy
  import opened MeetState
  import opened MeetFacts
  import opened MeetClaims
  import A = PcmArbitration

  /** The protocol has nothing new to say about the lane. */
  predicate Settled(env: Env, lane: Lane) {
    && ReadProtocol(env, lane) == lane.route
    && Resolve(lane.route) == RouteIdentity(lane.route.deviceId, lane.route.activityDeviceId,
                                            lane.route.overriddenProtocolRawDeviceId)
  }

  /** `d` is the only one shown as speaking, `src` belongs to someone else, and nobody else holds `d`. */
  predicate Challenged(s: State, src: Source, e: EntryId, d: DeviceId) {
    && s.env.running && Routable(src) && src in s.lanes && s.lanes[src].source == src
    && e in s.env.entries && s.env.entries[e].path == A.Native
    && TheOnly(Candidates(s.env.users, s.env.active)) == Some(d)
    && d != s.lanes[src].route.deviceId
    && (s.lanes[src].route.deviceId == NO_DEVICE || d in s.env.users)
    && Settled(s.env, s.lanes[src])
    && !ClaimedElsewhere(s.env, s.registry, src, d)
  }

  predicate Unvoted(lane: Lane, d: DeviceId) {
    && (lane.vote == None || lane.challengeDeviceId != d)
    && (lane.challengeDeviceId == NO_DEVICE || lane.challengeDeviceId != lane.route.deviceId)
  }

  /** `n` votes so far, from `first` to the last chunk. */
  predicate Voted(lane: Lane, d: DeviceId, n: nat, first: Time, last: Time) {
    if n == 0 then Unvoted(lane, d)
    else lane.challengeDeviceId == d && lane.vote == Some(Vote(d, n, first, last))
  }

  /** An update that finds nothing new leaves a challenge alone. */
  lemma SettledUpdate(env: Env, desk: Desk)
    requires Settled(env, desk.lane)
    requires desk.lane.challengeDeviceId == NO_DEVICE || desk.lane.challengeDeviceId != desk.lane.route.deviceId
    ensures UpdateRoute(env, desk) == Desk(desk.registry, Announce(env, desk.lane))
  {
    var lane := desk.lane;
    assert Resolved(lane, lane.route) == lane;
  }

  function NextVote(d: DeviceId, n: nat, first: Time, now: Time): Vote {
    Vote(d, n + 1, if n == 0 then now else first, now)
  }

  /** The lane was rebound to `d` just now. */
  predicate Rebound(lane: Lane, d: DeviceId, now: Time, log: seq<ClaimEvent>) {
    && lane.route.deviceId == d
    && var rebinds := lane.history.rebinds;
    && |rebinds| > 0
    && rebinds[|rebinds| - 1].deviceId == d && rebinds[|rebinds| - 1].at == now
    && rebinds[|rebinds| - 1].claimLog == log
  }

  lemma ChallengerCorrelates(env: Env, desk: Desk, peak: real, d: DeviceId, n: nat, first: Time, last: Time)
    requires TheOnly(Candidates(env.users, env.active)) == Some(d) && peak >= LOUD_PEAK
    requires d != desk.lane.route.deviceId && (desk.lane.route.deviceId == NO_DEVICE || d in env.users)
    requires !ClaimedElsewhere(env, desk.registry, desk.lane.source, d)
    requires Voted(desk.lane, d, n, first, last) && (n > 0 ==> last <= env.now <= last + VOTE_MAX_GAP_MS)
    ensures var (desk', decision) := Correlate(env, desk, peak, true);
            var vote := NextVote(d, n, first, env.now);
            && desk'.lane.source == desk.lane.source
            && decision == (if IdentityVoteReady(vote) then Rebind else Hold)
            && (decision == Hold ==>
                  && desk'.registry == ExpireClaim(env, desk.registry, d)
                  && desk'.lane.route == desk.lane.route
                  && Voted(desk'.lane, d, n + 1, vote.firstAt, env.now))
            && (decision == Rebind ==> Rebound(desk'.lane, d, env.now, desk.registry.claimLog))
  {
  }

  /** What one chunk of the challenger does to its own lane and the claims. */
  lemma ChallengerVotes(env: Env, desk: Desk, e: EntryId, samples: seq<real>, peak: real, d: DeviceId,
                        n: nat, first: Time, last: Time)
    requires TheOnly(Candidates(env.users, env.active)) == Some(d) && peak >= LOUD_PEAK
    requires d != desk.lane.route.deviceId && (desk.lane.route.deviceId == NO_DEVICE || d in env.users)
    requires !ClaimedElsewhere(env, desk.registry, desk.lane.source, d)
    requires Voted(desk.lane, d, n, first, last) && (n > 0 ==> last <= env.now <= last + VOTE_MAX_GAP_MS)
    ensures var desk', vote := Deliver(env, desk, e, samples, peak, true), NextVote(d, n, first, env.now);
            && desk'.lane.source == desk.lane.source
            && (!IdentityVoteReady(vote) ==>
                  && desk'.registry == ExpireClaim(env, desk.registry, d)
                  && desk'.lane.route == desk.lane.route
                  && Voted(desk'.lane, d, n + 1, vote.firstAt, env.now))
            && (IdentityVoteReady(vote) ==> Rebound(desk'.lane, d, env.now, desk.registry.claimLog))
  {
    ChallengerCorrelates(env, desk, peak, d, n, first, last);
    var lane := Correlate(env, desk, peak, true).0.lane;
    FlushKeeps(env, lane);
    PushKeeps(env, FlushChallenge(env, lane), e, samples);
  }

  // ---- The challenger's chunks as steps ----

  datatype Spoken = Spoken(at: Time, samples: seq<real>, peak: real)

  function Speaks(src: Source, e: EntryId, spoken: seq<Spoken>): seq<Step>
    decreases |spoken|
  {
    if spoken == [] then []
    else
      var front, c := spoken[..|spoken| - 1], spoken[|spoken| - 1];
      Speaks(src, e, front) + [Advance(c.at)] + [NativePcm(e, src, c.samples, c.peak, false)]
  }

  /** Loud chunks with gaps of at most 400 ms, none before `now`. */
  predicate Steady(spoken: seq<Spoken>, now: Time) {
    && (forall k | 0 <= k < |spoken| :: spoken[k].peak >= LOUD_PEAK)
    && (spoken != [] ==> now <= spoken[0].at)
    && (forall k | 0 <= k < |spoken| - 1 :: spoken[k].at <= spoken[k + 1].at <= spoken[k].at + VOTE_MAX_GAP_MS)
  }

  /** The first `k` chunks are enough. */
  predicate Convincing(spoken: seq<Spoken>, k: nat)
    requires k <= |spoken|
  {
    k >= VOTE_MIN_SAMPLES && spoken[k - 1].at - spoken[0].at >= VOTE_MIN_MS
  }

  /** One chunk of the challenger, at its time. */
  function AfterChunk(s: State, src: Source, e: EntryId, c: Spoken): State {
    Apply(Apply(s, Advance(c.at)), NativePcm(e, src, c.samples, c.peak, false))
  }

  lemma RunSpeaks(s: State, src: Source, e: EntryId, spoken: seq<Spoken>)
    requires spoken != []
    ensures var front, c := spoken[..|spoken| - 1], spoken[|spoken| - 1];
            Run(s, Speaks(src, e, spoken)) == AfterChunk(Run(s, Speaks(src, e, front)), src, e, c)
  {
    var front, c := spoken[..|spoken| - 1], spoken[|spoken| - 1];
    RunStep(s, Speaks(src, e, front), Advance(c.at));
    RunStep(s, Speaks(src, e, front) + [Advance(c.at)], NativePcm(e, src, c.samples, c.peak, false));
  }

  /** `src` was rebound to `d` just now. */
  predicate Won(s: State, src: Source, d: DeviceId, log: seq<ClaimEvent>) {
    src in s.lanes && Rebound(s.lanes[src], d, s.env.now, log)
  }

  /** The desk at which a chunk of a settled route is delivered. */
  function DeskAt(s: State, src: Source, at: Time): Desk
    requires src in s.lanes
  {
    var env := s.env.(now := at);
    Desk(s.registry, Announce(env, Announce(env, s.lanes[src])))
  }

  lemma ChunkIsDelivered(s: State, src: Source, e: EntryId, d: DeviceId, c: Spoken)
    requires Challenged(s, src, e, d) && s.env.now <= c.at
    requires s.lanes[src].challengeDeviceId == NO_DEVICE || s.lanes[src].challengeDeviceId != s.lanes[src].route.deviceId
    ensures var s', env := AfterChunk(s, src, e, c), s.env.(now := c.at);
            var desk' := Deliver(env, DeskAt(s, src, c.at), e, c.samples, c.peak, true);
            && s'.env == env
            && (desk'.lane.source == src ==>
                  src in s'.lanes && s'.lanes[src] == desk'.lane && s'.registry == desk'.registry)
  {
    var env := s.env.(now := c.at);
    SettledUpdate(env, Desk(s.registry, s.lanes[src]));
    assert RouteForSource(Apply(s, Advance(c.at)), src) == DeskAt(s, src, c.at);
  }

  lemma ChunkVotes(s: State, src: Source, e: EntryId, d: DeviceId, c: Spoken, n: nat, first: Time, last: Time)
    requires Challenged(s, src, e, d) && Voted(s.lanes[src], d, n, first, last)
    requires s.env.now <= c.at && c.peak >= LOUD_PEAK && (n > 0 ==> last <= c.at <= last + VOTE_MAX_GAP_MS)
    ensures var env, vote := s.env.(now := c.at), NextVote(d, n, first, c.at);
            var desk' := Deliver(env, DeskAt(s, src, c.at), e, c.samples, c.peak, true);
            && desk'.lane.source == src
            && (!IdentityVoteReady(vote) ==>
                  && desk'.registry == ExpireClaim(env, s.registry, d)
                  && desk'.lane.route == s.lanes[src].route
                  && Voted(desk'.lane, d, n + 1, vote.firstAt, c.at))
            && (IdentityVoteReady(vote) ==> Rebound(desk'.lane, d, c.at, s.registry.claimLog))
  {
    ChallengerVotes(s.env.(now := c.at), DeskAt(s, src, c.at), e, c.samples, c.peak, d, n, first, last);
  }

  lemma StaysChallenged(s: State, s': State, src: Source, e: EntryId, d: DeviceId)
    requires Challenged(s, src, e, d) && s.env.now <= s'.env.now && s'.env == s.env.(now := s'.env.now)
    requires src in s'.lanes && s'.lanes[src].source == src && s'.lanes[src].route == s.lanes[src].route
    requires s'.registry == ExpireClaim(s'.env, s.registry, d)
    ensures Challenged(s', src, e, d)
  {
  }

  lemma ChallengerStep(s: State, src: Source, e: EntryId, d: DeviceId, c: Spoken, n: nat, first: Time, last: Time)
    requires Challenged(s, src, e, d) && Voted(s.lanes[src], d, n, first, last)
    requires s.env.now <= c.at && c.peak >= LOUD_PEAK && (n > 0 ==> last <= c.at <= last + VOTE_MAX_GAP_MS)
    ensures var s', vote := AfterChunk(s, src, e, c), NextVote(d, n, first, c.at);
            && s'.env == s.env.(now := c.at)
            && (!IdentityVoteReady(vote) ==>
                  && Challenged(s', src, e, d) && Voted(s'.lanes[src], d, n + 1, vote.firstAt, c.at)
                  && s'.registry.claimLog == s.registry.claimLog)
            && (IdentityVoteReady(vote) ==> Won(s', src, d, s.registry.claimLog))
  {
    ChunkIsDelivered(s, src, e, d, c);
    ChunkVotes(s, src, e, d, c, n, first, last);
    if !IdentityVoteReady(NextVote(d, n, first, c.at)) {
      StaysChallenged(s, AfterChunk(s, src, e, c), src, e, d);
    }
  }

  /** From `s` to `t` the challenger spoke, and is not convincing yet. */
  predicate Progress(s: State, t: State, src: Source, e: EntryId, d: DeviceId, spoken: seq<Spoken>) {
    && Challenged(t, src, e, d)
    && t.registry.claimLog == s.registry.claimLog
    && t.env.now == FirstAndLast(spoken, s.env.now).1
    && Voted(t.lanes[src], d, |spoken|, FirstAndLast(spoken, s.env.now).0, FirstAndLast(spoken, s.env.now).1)
  }

  function FirstAndLast(spoken: seq<Spoken>, now: Time): (Time, Time) {
    if spoken == [] then (now, now) else (spoken[0].at, spoken[|spoken| - 1].at)
  }

  lemma SteadyAtLast(spoken: seq<Spoken>, now: Time)
    requires spoken != [] && Steady(spoken, now)
    ensures var n, c := |spoken| - 1, spoken[|spoken| - 1];
            var (first, last) := FirstAndLast(spoken[..n], now);
            && Steady(spoken[..n], now) && last <= c.at && c.peak >= LOUD_PEAK
            && (n > 0 ==> c.at <= last + VOTE_MAX_GAP_MS && first == spoken[0].at)
  {
    var n := |spoken| - 1;
    if n > 0 {
      assert spoken[n - 1].at <= spoken[n - 1 + 1].at <= spoken[n - 1].at + VOTE_MAX_GAP_MS;
    }
  }

  /** The next chunk keeps the challenge going or wins it. */
  lemma ProgressStep(s: State, t: State, src: Source, e: EntryId, d: DeviceId, spoken: seq<Spoken>)
    requires spoken != [] && Progress(s, t, src, e, d, spoken[..|spoken| - 1]) && Steady(spoken, s.env.now)
    ensures var t' := AfterChunk(t, src, e, spoken[|spoken| - 1]);
            && (!Convincing(spoken, |spoken|) ==> Progress(s, t', src, e, d, spoken))
            && (Convincing(spoken, |spoken|) ==>
                  Won(t', src, d, s.registry.claimLog) && t'.env.now == spoken[|spoken| - 1].at)
  {
    var n := |spoken| - 1;
    var (first, last) := FirstAndLast(spoken[..n], s.env.now);
    SteadyAtLast(spoken, s.env.now);
    ChallengerStep(t, src, e, d, spoken[n], n, first, last);
  }

  lemma {:induction false} ChallengerPersists(s: State, src: Source, e: EntryId, d: DeviceId, spoken: seq<Spoken>)
    requires Progress(s, s, src, e, d, []) && Steady(spoken, s.env.now)
    requires forall k | 0 <= k <= |spoken| :: !Convincing(spoken, k)
    ensures Progress(s, Run(s, Speaks(src, e, spoken)), src, e, d, spoken)
    decreases |spoken|
  {
    if spoken != [] {
      var n := |spoken| - 1;
      BeforeTheLast(spoken, n);
      SteadyAtLast(spoken, s.env.now);
      ChallengerPersists(s, src, e, d, spoken[..n]);
      RunSpeaks(s, src, e, spoken);
      assert !Convincing(spoken, |spoken|);
      ProgressStep(s, Run(s, Speaks(src, e, spoken[..n])), src, e, d, spoken);
    }
  }

  lemma BeforeTheLast(spoken: seq<Spoken>, n: nat)
    requires n < |spoken| && forall k | 0 <= k < |spoken| :: !Convincing(spoken, k)
    ensures forall k | 0 <= k <= n :: !Convincing(spoken[..n], k)
  {
    forall k | 0 <= k <= n ensures !Convincing(spoken[..n], k) {
      assert !Convincing(spoken, k);
    }
  }

  lemma NotBefore(s: State, src: Source, e: EntryId, d: DeviceId, spoken: seq<Spoken>, n: nat)
    requires Progress(s, s, src, e, d, []) && Steady(spoken, s.env.now)
    requires n < |spoken| && forall k | 0 <= k < |spoken| :: !Convincing(spoken, k)
    ensures Progress(s, Run(s, Speaks(src, e, spoken[..n])), src, e, d, spoken[..n])
  {
    BeforeTheLast(spoken, n);
    ChallengerPersists(s, src, e, d, spoken[..n]);
  }

  /** The challenger wins at the chunk that completes the evidence, and at none before. */
  lemma ChallengerWins(s: State, src: Source, e: EntryId, d: DeviceId, spoken: seq<Spoken>)
    requires Challenged(s, src, e, d) && Unvoted(s.lanes[src], d) && Steady(spoken, s.env.now)
    requires forall k | 0 <= k <= |spoken| :: Convincing(spoken, k) <==> k == |spoken|
    ensures Won(Run(s, Speaks(src, e, spoken)), src, d, s.registry.claimLog)
    ensures Run(s, Speaks(src, e, spoken)).env.now == spoken[|spoken| - 1].at
    ensures forall n | 0 <= n < |spoken| ::
              var s' := Run(s, Speaks(src, e, spoken[..n]));
              src in s'.lanes && s'.lanes[src].route.deviceId != d
  {
    forall n | 0 <= n < |spoken|
      ensures Progress(s, Run(s, Speaks(src, e, spoken[..n])), src, e, d, spoken[..n])
    {
      NotBefore(s, src, e, d, spoken, n);
    }
    var n := |spoken| - 1;
    assert Convincing(spoken, |spoken|);
    RunSpeaks(s, src, e, spoken);
    ProgressStep(s, Run(s, Speaks(src, e, spoken[..n])), src, e, d, spoken);
  }
}
