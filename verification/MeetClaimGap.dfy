/**
 The run in which a source is rebound to a device 250 ms after another source confirmed
 it and never lost it: the second source confirmed the device too, which replaced the
 first claim, and then lost it, which removed the only claim left.
 */
module MeetClaimGap {
  import opened Wrappers
  import opened CapturePolicy
  import opened MeetState
  import opened MeetFacts
  import opened MeetChallenger
  import A = PcmArbitration

  const FIRST: Source := "1"
  const SECOND: Source := "2"
  const SHARED: DeviceId := "D"
  const OTHER: DeviceId := "E"

  /** The protocol named the owner, activity did not, and no challenge is open. */
  predicate Mapped(lane: Lane, src: Source, d: DeviceId) {
    && lane.source == src && lane.route.deviceId == d && lane.route.protocolRawDeviceId == d
    && lane.route.protocolDeviceId == d && lane.route.activityDeviceId == NO_DEVICE
    && lane.route.overriddenProtocolRawDeviceId == NO_DEVICE && !lane.route.protocolStale
    && lane.vote == None && lane.challengeDeviceId == NO_DEVICE && lane.challengeAudio == []
  }

  /** Only the shared device is shown as speaking. */
  predicate Shown(env: Env) {
    && env.running && env.now == 0.0 && env.active == [Active(SHARED, false)]
    && env.users == map[SHARED := User(NO_DEVICE, false)]
    && 0 in env.entries && env.entries[0].path == A.Native
  }

  lemma OnlyShared(env: Env)
    requires Shown(env)
    ensures TheOnly(Candidates(env.users, env.active)) == Some(SHARED)
    ensures forall d | d == SHARED || d == OTHER :: CanonicalDevice(env.users, d) == d
  {
    assert Eligible(env.users, env.active[0]);
    assert Candidates(env.users, env.active) == {SHARED};
  }

  function Speak(src: Source): Step {
    NativePcm(0, src, [1.0], 1.0, false)
  }

  // ---- A new source confirms its device ----

  lemma FirstChunk(env: Env, reg: Registry, src: Source)
    requires Shown(env) && src in env.outputs && env.outputs[src] == SHARED
    ensures var desk := Deliver(env, CreateRoute(env, reg, src), 0, [1.0], 1.0, true);
            && Mapped(desk.lane, src, SHARED)
            && desk.registry.claims == reg.claims[SHARED := Claim(src, 0.0)]
            && desk.registry.claimLog == reg.claimLog + [Confirmed(src, SHARED, 0.0)]
  {
    OnlyShared(env);
    PushKeeps(env, Correlate(env, CreateRoute(env, reg, src), 1.0, true).0.lane, 0, [1.0]);
  }

  /** The sources in `srcs` share the device, and the last one's confirmation is the one kept. */
  predicate Sharing(s: State, srcs: seq<Source>, log: seq<ClaimEvent>) {
    && Shown(s.env) && s.env.outputs == map[FIRST := SHARED, SECOND := SHARED]
    && s.order == srcs && s.registry.claimLog == log
    && (forall src | src in s.lanes :: src in srcs)
    && (forall src | src in srcs :: src in s.lanes && Mapped(s.lanes[src], src, SHARED))
    && (srcs != [] ==> SHARED in s.registry.claims && s.registry.claims[SHARED] == Claim(srcs[|srcs| - 1], 0.0))
  }

  lemma FirstChunkStep(s: State, src: Source)
    requires Shown(s.env) && src !in s.lanes && (src == FIRST || src == SECOND)
    requires src in s.env.outputs && s.env.outputs[src] == SHARED
    ensures var s', desk := Apply(s, Speak(src)), Deliver(s.env, CreateRoute(s.env, s.registry, src), 0, [1.0], 1.0, true);
            && s'.env == s.env && s'.order == s.order + [src] && s'.registry == desk.registry
            && s'.lanes == s.lanes[src := desk.lane]
  {
    FirstChunk(s.env, s.registry, src);
    var desk := Deliver(s.env, CreateRoute(s.env, s.registry, src), 0, [1.0], 1.0, true);
    assert Apply(s, Speak(src)) == Put(WithRoute(s, src), desk);
  }

  lemma SourceJoins(s: State, srcs: seq<Source>, log: seq<ClaimEvent>, src: Source)
    requires Sharing(s, srcs, log) && src !in srcs && (src == FIRST || src == SECOND)
    ensures Sharing(Apply(s, Speak(src)), srcs + [src], log + [Confirmed(src, SHARED, 0.0)])
  {
    FirstChunkStep(s, src);
    FirstChunk(s.env, s.registry, src);
    SharingGrows(s, Apply(s, Speak(src)), srcs, log, src);
  }

  lemma SharingGrows(s: State, s': State, srcs: seq<Source>, log: seq<ClaimEvent>, src: Source)
    requires Sharing(s, srcs, log) && src !in srcs && s'.env == s.env && s'.order == s.order + [src]
    requires s'.lanes.Keys == s.lanes.Keys + {src} && Mapped(s'.lanes[src], src, SHARED)
    requires forall other | other in s.lanes && other != src :: s'.lanes[other] == s.lanes[other]
    requires s'.registry.claims == s.registry.claims[SHARED := Claim(src, 0.0)]
    requires s'.registry.claimLog == s.registry.claimLog + [Confirmed(src, SHARED, 0.0)]
    ensures Sharing(s', srcs + [src], log + [Confirmed(src, SHARED, 0.0)])
  {
  }

  // ---- The second source moves to another device ----

  lemma SecondMovesOn(env: Env, desk: Desk)
    requires Shown(env) && Mapped(desk.lane, SECOND, SHARED) && SECOND in env.outputs && env.outputs[SECOND] == OTHER
    requires SHARED in desk.registry.claims && desk.registry.claims[SHARED] == Claim(SECOND, 0.0)
    ensures var desk' := UpdateRoute(env, desk);
            && Mapped(desk'.lane, SECOND, OTHER) && SHARED !in desk'.registry.claims
            && desk'.registry.claimLog == desk.registry.claimLog + [Lost(SECOND, SHARED)]
  {
    OnlyShared(env);
    UpdateRouteResult(env, desk);
  }

  lemma BothUpdated(s: State, log: seq<ClaimEvent>)
    requires Sharing(s, [FIRST, SECOND], log)
    ensures var s' := Apply(s, OutputsChanged(map[FIRST := SHARED, SECOND := OTHER]));
            && Challenged(s', SECOND, 0, SHARED) && Unvoted(s'.lanes[SECOND], SHARED)
            && s'.env.now == 0.0 && s'.registry.claimLog == log + [Lost(SECOND, SHARED)]
  {
    var s1 := s.(env := s.env.(outputs := map[FIRST := SHARED, SECOND := OTHER]));
    OnlyShared(s1.env);
    SettledUpdate(s1.env, Desk(s1.registry, s1.lanes[FIRST]));
    var s2 := Put(s1, UpdateRoute(s1.env, Desk(s1.registry, s1.lanes[FIRST])));
    SecondMovesOn(s2.env, Desk(s2.registry, s2.lanes[SECOND]));
    TwoUpdates(s1, s1.order);
  }

  lemma TwoUpdates(s: State, order: seq<Source>)
    requires order == [FIRST, SECOND] && FIRST in s.lanes && SECOND in s.lanes
    requires UpdateRoute(s.env, Desk(s.registry, s.lanes[FIRST])).lane.source == FIRST
    ensures var s2 := Put(s, UpdateRoute(s.env, Desk(s.registry, s.lanes[FIRST])));
            UpdateRoutes(s, order) == Put(s2, UpdateRoute(s2.env, Desk(s2.registry, s2.lanes[SECOND])))
  {
    var s2 := Put(s, UpdateRoute(s.env, Desk(s.registry, s.lanes[FIRST])));
    assert order[1..] == [SECOND] && [SECOND][1..] == [];
    assert UpdateRoutes(s, order) == UpdateRoutes(s2, [SECOND]);
  }

  // ---- The run ----

  function Opening(): seq<Step> {
    [Attach(0, Entry(0, A.Native, false))] + [Start] + [SetActive([Active(SHARED, false)])]
      + [UsersChanged(map[SHARED := User(NO_DEVICE, false)])]
      + [OutputsChanged(map[FIRST := SHARED, SECOND := SHARED])]
  }

  function Overwriting(): seq<Step> {
    Opening() + [Speak(FIRST)] + [Speak(SECOND)] + [OutputsChanged(map[FIRST := SHARED, SECOND := OTHER])]
  }

  /** Six chunks, 50 ms apart. */
  function SixChunks(): seq<Spoken> {
    seq(6, i => Spoken(50.0 * i as real, [1.0], 1.0))
  }

  lemma Opened()
    ensures Sharing(Run(INITIAL, Opening()), [], [Wiped])
  {
    var attach, active := Attach(0, Entry(0, A.Native, false)), SetActive([Active(SHARED, false)]);
    var users := UsersChanged(map[SHARED := User(NO_DEVICE, false)]);
    RunStep(INITIAL, [], attach);
    RunStep(INITIAL, [attach], Start);
    RunStep(INITIAL, [attach] + [Start], active);
    RunStep(INITIAL, [attach] + [Start] + [active], users);
    RunStep(INITIAL, [attach] + [Start] + [active] + [users], OutputsChanged(map[FIRST := SHARED, SECOND := SHARED]));
    assert [] + [attach] == [attach];
  }

  /** The second source is challenged for a device on which the first one's claim is gone. */
  predicate Open(s: State) {
    && Challenged(s, SECOND, 0, SHARED) && Unvoted(s.lanes[SECOND], SHARED) && s.env.now == 0.0
    && s.registry.claimLog ==
       [Wiped, Confirmed(FIRST, SHARED, 0.0), Confirmed(SECOND, SHARED, 0.0), Lost(SECOND, SHARED)]
  }

  lemma BothJoin(s: State)
    requires Sharing(s, [], [Wiped])
    ensures Sharing(Apply(Apply(s, Speak(FIRST)), Speak(SECOND)), [FIRST, SECOND],
                    [Wiped, Confirmed(FIRST, SHARED, 0.0), Confirmed(SECOND, SHARED, 0.0)])
  {
    SourceJoins(s, [], [Wiped], FIRST);
    assert [] + [FIRST] == [FIRST];
    SourceJoins(Apply(s, Speak(FIRST)), [FIRST], [Wiped] + [Confirmed(FIRST, SHARED, 0.0)], SECOND);
    assert [FIRST] + [SECOND] == [FIRST, SECOND];
  }

  lemma Overwritten()
    ensures Open(Run(INITIAL, Overwriting()))
  {
    Opened();
    var s, move := Run(INITIAL, Opening()), OutputsChanged(map[FIRST := SHARED, SECOND := OTHER]);
    BothJoin(s);
    BothUpdated(Apply(Apply(s, Speak(FIRST)), Speak(SECOND)),
      [Wiped, Confirmed(FIRST, SHARED, 0.0), Confirmed(SECOND, SHARED, 0.0)]);
    ThreeSteps(INITIAL, Opening(), Speak(FIRST), Speak(SECOND), move);
  }

  lemma ThreeSteps(s: State, steps: seq<Step>, a: Step, b: Step, c: Step)
    ensures Run(s, steps + [a] + [b] + [c]) == Apply(Apply(Apply(Run(s, steps), a), b), c)
  {
    RunStep(s, steps, a);
    RunStep(s, steps + [a], b);
    RunStep(s, steps + [a] + [b], c);
  }

  /** Source 2 is rebound to the device that source 1 confirmed 250 ms ago and still owns. */
  lemma OverwrittenClaimIsNoProtection()
    ensures Won(Run(INITIAL, Overwriting() + Speaks(SECOND, 0, SixChunks())), SECOND, SHARED,
                [Wiped, Confirmed(FIRST, SHARED, 0.0), Confirmed(SECOND, SHARED, 0.0), Lost(SECOND, SHARED)])
    ensures Run(INITIAL, Overwriting() + Speaks(SECOND, 0, SixChunks())).env.now == 250.0
  {
    Overwritten();
    RunContinues(INITIAL, Overwriting(), Speaks(SECOND, 0, SixChunks()));
    forall k | 0 <= k <= 6 ensures Convincing(SixChunks(), k) <==> k == 6 {
    }
    ChallengerWins(Run(INITIAL, Overwriting()), SECOND, 0, SHARED, SixChunks());
  }
}
