/**
 Ownership over whole runs: an owner is lost exactly when the protocol maps the source to
 a blank id and no activity backs the owner, and an activity rebind holds against the
 mapping it disproved until the protocol offers new evidence.
 */
module MeetOwnership {
  import opened Wrappers
  import opened CapturePolicy
  import opened MeetState
  import opened MeetFacts

  // ---- Who owns a route after an update ----

  /** The protocol maps the source to a device other than the one that activity overrode. */
  predicate NewEvidence(env: Env, lane: Lane) {
    && lane.source in env.outputs && env.outputs[lane.source] != NO_DEVICE
    && (lane.route.activityDeviceId == NO_DEVICE || env.outputs[lane.source] != lane.route.overriddenProtocolRawDeviceId)
  }

  /**
   An update follows new evidence of the protocol; without it the activity owner stays, or
   the former one on a mapping that has gone stale, and otherwise nobody owns the route.
   */
  lemma UpdateOwnerExactly(env: Env, desk: Desk)
    requires UsersNamed(env)
    ensures var lane, owner := desk.lane, UpdateRoute(env, desk).lane.route.deviceId;
            owner == if NewEvidence(env, lane) then CanonicalDevice(env.users, env.outputs[lane.source])
                     else if lane.route.activityDeviceId != NO_DEVICE then lane.route.activityDeviceId
                     else if lane.source !in env.outputs && (lane.route.protocolStale || lane.route.protocolRawDeviceId != NO_DEVICE)
                     then lane.route.deviceId
                     else NO_DEVICE
  {
    UpdateRouteResult(env, desk);
  }

  /** A new route follows the protocol, on the channel its owner has already. */
  lemma CreatedOwnerExactly(env: Env, reg: Registry, src: Source)
    requires UsersNamed(env)
    ensures var route := CreateRoute(env, reg, src).lane.route;
            && route.deviceId == (if src in env.outputs && env.outputs[src] != NO_DEVICE
                                  then CanonicalDevice(env.users, env.outputs[src]) else NO_DEVICE)
            && (route.deviceId != NO_DEVICE && route.deviceId in reg.channels ==> route.channel == reg.channels[route.deviceId])
  {
  }

  // ---- Losing an owner ----

  /** An owner rests on activity, on a protocol mapping, or on one that has gone stale. */
  predicate Rooted(route: Route) {
    route.deviceId != NO_DEVICE ==>
      route.activityDeviceId != NO_DEVICE || route.protocolRawDeviceId != NO_DEVICE || route.protocolStale
  }

  predicate UsersNamed(env: Env) {
    NO_DEVICE !in env.users
  }

  predicate NamesDevices(outputs: map<Source, DeviceId>) {
    forall src | src in outputs :: outputs[src] != NO_DEVICE
  }

  /** The protocol maps the source to a blank id, and no activity backs the owner. */
  predicate Blanked(env: Env, lane: Lane) {
    && lane.source in env.outputs && env.outputs[lane.source] == NO_DEVICE
    && lane.route.activityDeviceId == NO_DEVICE
  }

  predicate Settled(env: Env, lane: Lane) {
    Blanked(env, lane) ==> lane.route.deviceId == NO_DEVICE
  }

  /** An update takes the owner away exactly when the source is blanked. */
  lemma UpdateLosesOwner(env: Env, desk: Desk)
    requires UsersNamed(env) && Rooted(desk.lane.route)
    ensures var lane' := UpdateRoute(env, desk).lane;
            && Rooted(lane'.route) && (Blanked(env, lane') <==> Blanked(env, desk.lane)) && Settled(env, lane')
            && (desk.lane.route.deviceId != NO_DEVICE ==> (lane'.route.deviceId == NO_DEVICE <==> Blanked(env, desk.lane)))
  {
    UpdateRouteResult(env, desk);
  }

  // ---- Owners over all generations ----

  /** Only the first generation of a route can be without an owner. */
  predicate NamedOnce(owners: seq<DeviceId>) {
    forall g | 0 < g < |owners| :: owners[g] != NO_DEVICE
  }

  predicate OwnersNamed(lane: Lane) {
    && |lane.history.owners| > 0
    && lane.history.owners[|lane.history.owners| - 1] == lane.route.deviceId
    && NamedOnce(lane.history.owners)
  }

  /** `named` if the protocol has always named its devices. */
  predicate OwnedOk(lane: Lane, named: bool) {
    Rooted(lane.route) && (named ==> OwnersNamed(lane))
  }

  predicate EnvNamed(env: Env, named: bool) {
    UsersNamed(env) && (named ==> NamesDevices(env.outputs))
  }

  lemma UpdateOwnedOk(env: Env, desk: Desk, named: bool)
    requires EnvNamed(env, named) && OwnedOk(desk.lane, named)
    ensures OwnedOk(UpdateRoute(env, desk).lane, named) && Settled(env, UpdateRoute(env, desk).lane)
  {
    UpdateLosesOwner(env, desk);
    UpdateRouteResult(env, desk);
  }

  lemma CorrelateOwnedOk(env: Env, desk: Desk, peak: real, allowChallenge: bool, named: bool)
    requires OwnedOk(desk.lane, named) && Settled(env, desk.lane)
    ensures var lane' := Correlate(env, desk, peak, allowChallenge).0.lane;
            OwnedOk(lane', named) && Settled(env, lane')
  {
    CorrelateResult(env, desk, peak, allowChallenge);
  }

  lemma DeliverOwnedOk(env: Env, desk: Desk, e: EntryId, samples: seq<real>, peak: real, allowChallenge: bool, named: bool)
    requires OwnedOk(desk.lane, named) && Settled(env, desk.lane)
    ensures var lane' := Deliver(env, desk, e, samples, peak, allowChallenge).lane;
            OwnedOk(lane', named) && Settled(env, lane')
  {
    CorrelateOwnedOk(env, desk, peak, allowChallenge, named);
    FollowOwnedOk(env, Correlate(env, desk, peak, allowChallenge).0.lane, e, samples, named);
  }

  /** Whatever correlation decides, publishing and holding leave the owners alone. */
  lemma FollowOwnedOk(env: Env, lane: Lane, e: EntryId, samples: seq<real>, named: bool)
    requires OwnedOk(lane, named) && Settled(env, lane)
    ensures forall lane' | lane' in [PushPcm(env, lane, e, samples), HoldPcm(lane, e, samples),
                                     PushPcm(env, FlushChallenge(env, lane), e, samples)] ::
              OwnedOk(lane', named) && Settled(env, lane')
  {
    FlushKeeps(env, lane);
    PushKeeps(env, lane, e, samples);
    PushKeeps(env, FlushChallenge(env, lane), e, samples);
  }

  // ---- An override holds ----

  /** Activity gave the route to `d` against the protocol's raw owner `raw`. */
  predicate Overrides(route: Route, d: DeviceId, raw: DeviceId) {
    && d != NO_DEVICE && route.deviceId == d && route.activityDeviceId == d
    && route.overriddenProtocolRawDeviceId == raw
  }

  /** The protocol repeats the disproved mapping or has none. */
  predicate Repeats(outputs: map<Source, DeviceId>, src: Source, raw: DeviceId) {
    src in outputs ==> outputs[src] == raw || outputs[src] == NO_DEVICE
  }

  lemma UpdateKeepsOverride(env: Env, desk: Desk, d: DeviceId, raw: DeviceId)
    requires Overrides(desk.lane.route, d, raw) && Repeats(env.outputs, desk.lane.source, raw)
    ensures Overrides(UpdateRoute(env, desk).lane.route, d, raw)
  {
    UpdateRouteResult(env, desk);
  }

  /** New protocol evidence is authoritative again and ends the override. */
  lemma NewEvidenceEndsOverride(env: Env, desk: Desk, d: DeviceId, raw: DeviceId)
    requires UsersNamed(env) && Overrides(desk.lane.route, d, raw)
    requires desk.lane.source in env.outputs
    requires env.outputs[desk.lane.source] != raw && env.outputs[desk.lane.source] != NO_DEVICE
    ensures var route := UpdateRoute(env, desk).lane.route;
            && route.deviceId == CanonicalDevice(env.users, env.outputs[desk.lane.source])
            && route.activityDeviceId == NO_DEVICE && route.overriddenProtocolRawDeviceId == NO_DEVICE
  {
    UpdateRouteResult(env, desk);
  }

  /** Correlation changes the identity of a route only by a rebind, which is recorded and overrides the raw owner. */
  lemma CorrelateKeepsRoute(env: Env, desk: Desk, peak: real, allowChallenge: bool)
    ensures var (desk', decision) := Correlate(env, desk, peak, allowChallenge);
            && desk'.lane.source == desk.lane.source
            && |desk.lane.history.rebinds| <= |desk'.lane.history.rebinds|
            && if |desk.lane.history.rebinds| == |desk'.lane.history.rebinds| then desk'.lane.route == desk.lane.route
               else Overrides(desk'.lane.route, desk'.lane.route.deviceId, desk.lane.route.protocolRawDeviceId)
  {
    CorrelateResult(env, desk, peak, allowChallenge);
  }

  lemma DeliverKeepsRoute(env: Env, desk: Desk, e: EntryId, samples: seq<real>, peak: real, allowChallenge: bool)
    ensures var desk' := Deliver(env, desk, e, samples, peak, allowChallenge);
            && desk'.lane.source == desk.lane.source
            && |desk.lane.history.rebinds| <= |desk'.lane.history.rebinds|
            && if |desk.lane.history.rebinds| == |desk'.lane.history.rebinds| then desk'.lane.route == desk.lane.route
               else Overrides(desk'.lane.route, desk'.lane.route.deviceId, desk.lane.route.protocolRawDeviceId)
  {
    CorrelateKeepsRoute(env, desk, peak, allowChallenge);
    var (correlated, _) := Correlate(env, desk, peak, allowChallenge);
    FlushKeeps(env, correlated.lane);
    PushKeeps(env, correlated.lane, e, samples);
    PushKeeps(env, FlushChallenge(env, correlated.lane), e, samples);
  }

  // ---- Both, over the steps of the machine ----

  predicate Sourced(s: State) {
    forall src | src in s.lanes :: s.lanes[src].source == src
  }

  /** Every owner is rooted, and every route not due for an update is settled. */
  predicate AllOwned(s: State, named: bool, due: seq<Source>) {
    && Listed(s) && EnvNamed(s.env, named)
    && forall src | src in s.lanes :: OwnedOk(s.lanes[src], named) && (src in due || Settled(s.env, s.lanes[src]))
  }

  predicate NamingStep(step: Step) {
    step.OutputsChanged? ==> NamesDevices(step.current)
  }

  lemma {:induction false} UpdateRoutesOwned(s: State, named: bool, order: seq<Source>)
    requires AllOwned(s, named, order)
    ensures AllOwned(UpdateRoutes(s, order), named, [])
    decreases |order|
  {
    if order != [] {
      if order[0] in s.lanes {
        var desk := Desk(s.registry, s.lanes[order[0]]);
        UpdateOwnedOk(s.env, desk, named);
        UpdateRouteResult(s.env, desk);
        UpdateRoutesOwned(Put(s, UpdateRoute(s.env, desk)), named, order[1..]);
      } else {
        UpdateRoutesOwned(s, named, order[1..]);
      }
    }
  }

  lemma CreateOwned(env: Env, reg: Registry, src: Source, named: bool)
    requires EnvNamed(env, named)
    ensures var lane := CreateRoute(env, reg, src).lane;
            lane.source == src && OwnedOk(lane, named) && Settled(env, lane)
  {
  }

  lemma RouteUpdated(env: Env, desk: Desk, named: bool)
    requires EnvNamed(env, named) && OwnedOk(desk.lane, named) && Settled(env, desk.lane)
    ensures var lane := Announce(env, UpdateRoute(env, desk).lane);
            && lane.source == desk.lane.source && OwnedOk(lane, named) && Settled(env, lane)
            && (desk.lane.route.deviceId != NO_DEVICE ==> lane.route.deviceId != NO_DEVICE)
  {
    UpdateLosesOwner(env, desk);
    UpdateOwnedOk(env, desk, named);
    UpdateRouteResult(env, desk);
  }

  lemma RouteForSourceOwned(s: State, named: bool, src: Source)
    requires AllOwned(s, named, [])
    ensures var lane := RouteForSource(s, src).lane;
            && lane.source == src && OwnedOk(lane, named) && Settled(s.env, lane)
            && (HasOwner(s, src) ==> lane.route.deviceId != NO_DEVICE)
  {
    if src in s.lanes {
      RouteUpdated(s.env, Desk(s.registry, s.lanes[src]), named);
    } else {
      CreateOwned(s.env, s.registry, src, named);
    }
  }

  predicate HasOwner(s: State, src: Source) {
    src in s.lanes && s.lanes[src].route.deviceId != NO_DEVICE
  }

  lemma WithRouteOwned(s: State, named: bool, src: Source)
    requires AllOwned(s, named, []) && Routable(src)
    ensures var s1 := WithRoute(s, src);
            && AllOwned(s1, named, []) && src in s1.lanes && s1.env == s.env
            && s1.lanes[src] == RouteForSource(s, src).lane && s1.registry == RouteForSource(s, src).registry
            && forall x | HasOwner(s, x) :: HasOwner(s1, x)
  {
    RouteForSourceOwned(s, named, src);
  }

  lemma DeliverStepOwned(s: State, named: bool, src: Source, e: EntryId, samples: seq<real>, peak: real, allowChallenge: bool)
    requires AllOwned(s, named, []) && src in s.lanes
    ensures AllOwned(Put(s, Deliver(s.env, Desk(s.registry, s.lanes[src]), e, samples, peak, allowChallenge)), named, [])
  {
    DeliverOwnedOk(s.env, Desk(s.registry, s.lanes[src]), e, samples, peak, allowChallenge, named);
    DeliverKeepsRoute(s.env, Desk(s.registry, s.lanes[src]), e, samples, peak, allowChallenge);
  }

  predicate Delivers(step: Step) {
    step.NativePcm? || step.EncodedFrame? || step.EncodedPcm?
  }

  lemma NativeOwned(s: State, named: bool, step: Step)
    requires AllOwned(s, named, []) && step.NativePcm? && Enabled(s, step)
    ensures AllOwned(Apply(s, step), named, [])
  {
    if s.env.running && Routable(step.source) {
      WithRouteOwned(s, named, step.source);
      DeliverStepOwned(WithRoute(s, step.source), named, step.source, step.id, step.samples, step.peak, true);
    }
  }

  lemma FrameOwned(s: State, named: bool, step: Step)
    requires AllOwned(s, named, []) && step.EncodedFrame? && Enabled(s, step)
    ensures AllOwned(Apply(s, step), named, [])
  {
    if s.env.running && Routable(step.source) {
      WithRouteOwned(s, named, step.source);
      var s1, audible := WithRoute(s, step.source), step.level.Some? && step.level.value >= A.AUDIBLE_LEVEL;
      FrameKeepsOwned(s1, named, RouteForSource(s, step.source).lane, s.env.entries[step.id].receiver, audible, step.candidate, step.native);
    }
  }

  lemma FrameKeepsOwned(s: State, named: bool, lane: Lane, receiver: Receiver, audible: bool, candidate: bool, native: Option<EntryId>)
    requires AllOwned(s, named, []) && lane.source in s.lanes && s.lanes[lane.source] == lane
    ensures AllOwned(Put(s, Desk(s.registry, ReceiveFrame(s.env, lane, receiver, audible, candidate, native))), named, [])
  {
  }

  lemma DeliveryOwned(s: State, named: bool, step: Step)
    requires AllOwned(s, named, []) && Delivers(step) && Enabled(s, step)
    ensures AllOwned(Apply(s, step), named, [])
  {
    if step.NativePcm? {
      NativeOwned(s, named, step);
    } else if step.EncodedFrame? {
      FrameOwned(s, named, step);
    } else {
      DeliverStepOwned(s, named, step.source, step.id, step.samples, step.peak, step.allowChallenge);
    }
  }

  lemma StepOwned(s: State, named: bool, step: Step)
    requires AllOwned(s, named, []) && (named ==> NamingStep(step))
    ensures AllOwned(Apply(s, step), named, [])
  {
    if Enabled(s, step) {
      if Delivers(step) {
        DeliveryOwned(s, named, step);
      } else if step.UsersChanged? {
        UpdateRoutesOwned(s.(env := s.env.(users := step.known)), named, s.order);
      } else if step.OutputsChanged? {
        UpdateRoutesOwned(s.(env := s.env.(outputs := step.current)), named, s.order);
      } else {
        QuietOwned(s, named, step);
      }
    }
  }

  lemma QuietOwned(s: State, named: bool, step: Step)
    requires AllOwned(s, named, []) && Enabled(s, step)
    requires !Delivers(step) && !step.UsersChanged? && !step.OutputsChanged?
    ensures AllOwned(Apply(s, step), named, [])
  {
    QuietSteps(s, step);
    SameRoutesOwned(s, named, Apply(s, step));
  }

  lemma SameRoutesOwned(s: State, named: bool, s': State)
    requires AllOwned(s, named, []) && SameRoutes(s, s') && s'.order == s.order
    requires s'.env.users == s.env.users && s'.env.outputs == s.env.outputs
    ensures AllOwned(s', named, [])
  {
    forall src | src in s'.lanes ensures OwnedOk(s'.lanes[src], named) && Settled(s'.env, s'.lanes[src]) {
      assert src in s.lanes && OwnedOk(s.lanes[src], named) && Settled(s.env, s.lanes[src]);
    }
  }

  lemma {:induction false} RunOwned(steps: seq<Step>, named: bool)
    requires named ==> forall step | step in steps :: NamingStep(step)
    ensures AllOwned(Run(INITIAL, steps), named, [])
    decreases |steps|
  {
    if steps != [] {
      RunOwned(steps[..|steps| - 1], named);
      StepOwned(Run(INITIAL, steps[..|steps| - 1]), named, steps[|steps| - 1]);
    }
  }

  /** Over every run whose protocol names its devices, only the first generation of a route can be without an owner. */
  lemma OwnedStaysOwned(steps: seq<Step>, src: Source)
    requires forall step | step in steps :: NamingStep(step)
    requires src in Run(INITIAL, steps).lanes
    ensures NamedOnce(Run(INITIAL, steps).lanes[src].history.owners)
  {
    RunOwned(steps, true);
  }

  // ---- Exactly when a step takes an owner away ----

  /** The source has an owner, unless it was blanked. */
  predicate OwnedUnlessBlanked(s: State, src: Source) {
    && Sourced(s) && UsersNamed(s.env) && src in s.lanes && Rooted(s.lanes[src].route)
    && (s.lanes[src].route.deviceId == NO_DEVICE ==> Blanked(s.env, s.lanes[src]))
  }

  lemma {:induction false} UpdateRoutesLose(s: State, order: seq<Source>, src: Source)
    requires OwnedUnlessBlanked(s, src)
    ensures var s' := UpdateRoutes(s, order);
            && OwnedUnlessBlanked(s', src)
            && (src in order ==> (s'.lanes[src].route.deviceId == NO_DEVICE <==> Blanked(s.env, s.lanes[src])))
            && (Blanked(s'.env, s'.lanes[src]) <==> Blanked(s.env, s.lanes[src]))
            && (src !in order ==> s'.lanes[src] == s.lanes[src])
    decreases |order|
  {
    if order != [] {
      if order[0] in s.lanes {
        var s1 := Put(s, UpdateRoute(s.env, Desk(s.registry, s.lanes[order[0]])));
        OneUpdateLoses(s, order[0], src);
        UpdateRoutesLose(s1, order[1..], src);
      } else {
        UpdateRoutesLose(s, order[1..], src);
      }
    }
  }

  lemma OneUpdateLoses(s: State, changed: Source, src: Source)
    requires OwnedUnlessBlanked(s, src) && changed in s.lanes
    ensures var s' := Put(s, UpdateRoute(s.env, Desk(s.registry, s.lanes[changed])));
            && OwnedUnlessBlanked(s', src) && (Blanked(s'.env, s'.lanes[src]) <==> Blanked(s.env, s.lanes[src]))
            && (changed != src ==> s'.lanes[src] == s.lanes[src])
            && (changed == src ==> Settled(s.env, s'.lanes[src]))
  {
    UpdateRouteResult(s.env, Desk(s.registry, s.lanes[changed]));
    if changed == src {
      UpdateLosesOwner(s.env, Desk(s.registry, s.lanes[src]));
    }
  }

  lemma DeliverStepKeepsOwner(s: State, used: Source, e: EntryId, samples: seq<real>, peak: real, allowChallenge: bool, src: Source)
    requires Sourced(s) && used in s.lanes && HasOwner(s, src)
    ensures HasOwner(Put(s, Deliver(s.env, Desk(s.registry, s.lanes[used]), e, samples, peak, allowChallenge)), src)
  {
    DeliverKeepsOwner(s.env, Desk(s.registry, s.lanes[used]), e, samples, peak, allowChallenge);
  }

  lemma DeliveryKeepsOwner(s: State, step: Step, src: Source)
    requires AllOwned(s, false, []) && HasOwner(s, src) && Delivers(step) && Enabled(s, step)
    ensures HasOwner(Apply(s, step), src)
  {
    if step.EncodedPcm? {
      DeliverStepKeepsOwner(s, step.source, step.id, step.samples, step.peak, step.allowChallenge, src);
    } else if step.NativePcm? {
      NativeKeepsOwner(s, step.id, step.source, step.samples, step.peak, step.isSelf, src);
    } else {
      FrameKeepsOwner(s, step.id, step.source, step.level, step.candidate, step.native, step.isSelf, src);
    }
  }

  lemma NativeKeepsOwner(s: State, e: EntryId, used: Source, samples: seq<real>, peak: real, isSelf: bool, src: Source)
    requires AllOwned(s, false, []) && HasOwner(s, src)
    ensures HasOwner(ReceiveNative(s, e, used, samples, peak, isSelf), src)
  {
    if s.env.running && Routable(used) {
      WithRouteOwned(s, false, used);
      DeliverStepKeepsOwner(WithRoute(s, used), used, e, samples, peak, true, src);
    }
  }

  lemma FrameKeepsOwner(s: State, e: EntryId, used: Source, level: Option<real>, candidate: bool, native: Option<EntryId>,
                        isSelf: bool, src: Source)
    requires AllOwned(s, false, []) && HasOwner(s, src) && e in s.env.entries
    ensures HasOwner(ReceiveEncoded(s, e, used, level, candidate, native, isSelf), src)
  {
    if s.env.running && Routable(used) {
      WithRouteOwned(s, false, used);
    }
  }

  lemma DeliverKeepsOwner(env: Env, desk: Desk, e: EntryId, samples: seq<real>, peak: real, allowChallenge: bool)
    ensures var lane' := Deliver(env, desk, e, samples, peak, allowChallenge).lane;
            lane'.source == desk.lane.source
            && (desk.lane.route.deviceId != NO_DEVICE ==> lane'.route.deviceId != NO_DEVICE)
  {
    CorrelateResult(env, desk, peak, allowChallenge);
    var (correlated, _) := Correlate(env, desk, peak, allowChallenge);
    FlushKeeps(env, correlated.lane);
    PushKeeps(env, correlated.lane, e, samples);
    PushKeeps(env, FlushChallenge(env, correlated.lane), e, samples);
  }

  /**
   Over every run, a step takes away the owner of a source exactly when it maps the source
   to a blank id while no activity backs the owner.
   */
  lemma OwnerLostExactly(steps: seq<Step>, step: Step, src: Source)
    requires HasOwner(Run(INITIAL, steps), src)
    ensures var s := Run(INITIAL, steps);
            !HasOwner(Apply(s, step), src) <==>
              && step.OutputsChanged? && src in step.current && step.current[src] == NO_DEVICE
              && s.lanes[src].route.activityDeviceId == NO_DEVICE
  {
    var s := Run(INITIAL, steps);
    RunOwned(steps, false);
    if Enabled(s, step) {
      if Delivers(step) {
        DeliveryKeepsOwner(s, step, src);
      } else if step.UsersChanged? {
        UpdateRoutesLose(s.(env := s.env.(users := step.known)), s.order, src);
      } else if step.OutputsChanged? {
        UpdateRoutesLose(s.(env := s.env.(outputs := step.current)), s.order, src);
      } else {
        QuietSteps(s, step);
      }
    }
  }

  // ---- The override over runs ----

  /** Unless `src` was rebound again after its `n` rebinds, its override still stands. */
  predicate StillOverrides(s: State, src: Source, d: DeviceId, raw: DeviceId, n: nat) {
    && Sourced(s) && src in s.lanes
    && |s.lanes[src].history.rebinds| >= n
    && (|s.lanes[src].history.rebinds| == n ==> Overrides(s.lanes[src].route, d, raw))
  }

  predicate RepeatingStep(step: Step, src: Source, raw: DeviceId) {
    step.OutputsChanged? ==> Repeats(step.current, src, raw)
  }

  lemma UpdateStepOverrides(s: State, changed: Source, src: Source, d: DeviceId, raw: DeviceId, n: nat)
    requires StillOverrides(s, src, d, raw, n) && Repeats(s.env.outputs, src, raw) && changed in s.lanes
    ensures StillOverrides(Put(s, UpdateRoute(s.env, Desk(s.registry, s.lanes[changed]))), src, d, raw, n)
  {
    var desk := Desk(s.registry, s.lanes[changed]);
    UpdateRouteResult(s.env, desk);
    if changed == src && |s.lanes[src].history.rebinds| == n {
      UpdateKeepsOverride(s.env, desk, d, raw);
    }
  }

  lemma {:induction false} UpdateRoutesOverrides(s: State, order: seq<Source>, src: Source, d: DeviceId, raw: DeviceId, n: nat)
    requires StillOverrides(s, src, d, raw, n) && Repeats(s.env.outputs, src, raw)
    ensures StillOverrides(UpdateRoutes(s, order), src, d, raw, n)
    decreases |order|
  {
    if order != [] {
      if order[0] in s.lanes {
        UpdateStepOverrides(s, order[0], src, d, raw, n);
        var s' := Put(s, UpdateRoute(s.env, Desk(s.registry, s.lanes[order[0]])));
        UpdateRoutesOverrides(s', order[1..], src, d, raw, n);
      } else {
        UpdateRoutesOverrides(s, order[1..], src, d, raw, n);
      }
    }
  }

  lemma WithRouteOverrides(s: State, used: Source, src: Source, d: DeviceId, raw: DeviceId, n: nat)
    requires StillOverrides(s, src, d, raw, n) && Repeats(s.env.outputs, src, raw)
    ensures StillOverrides(WithRoute(s, used), src, d, raw, n) && used in WithRoute(s, used).lanes
    ensures WithRoute(s, used).lanes[used] == RouteForSource(s, used).lane
    ensures WithRoute(s, used).registry == RouteForSource(s, used).registry
    ensures WithRoute(s, used).env == s.env
  {
    if used in s.lanes {
      UpdateStepOverrides(s, used, src, d, raw, n);
      UpdateRouteResult(s.env, Desk(s.registry, s.lanes[used]));
    }
  }

  lemma DeliverStepOverrides(s: State, used: Source, e: EntryId, samples: seq<real>, peak: real, allowChallenge: bool,
                             src: Source, d: DeviceId, raw: DeviceId, n: nat)
    requires StillOverrides(s, src, d, raw, n) && used in s.lanes
    ensures StillOverrides(
              Put(s, Deliver(s.env, Desk(s.registry, s.lanes[used]), e, samples, peak, allowChallenge)), src, d, raw, n)
  {
    DeliverKeepsRoute(s.env, Desk(s.registry, s.lanes[used]), e, samples, peak, allowChallenge);
  }

  lemma StepOverrides(s: State, step: Step, src: Source, d: DeviceId, raw: DeviceId, n: nat)
    requires StillOverrides(s, src, d, raw, n)
    requires Repeats(s.env.outputs, src, raw) && RepeatingStep(step, src, raw)
    ensures StillOverrides(Apply(s, step), src, d, raw, n)
  {
    if Enabled(s, step) {
      if step.NativePcm? {
        NativeOverrides(s, step, src, d, raw, n);
      } else if step.EncodedFrame? {
        FrameOverrides(s, step, src, d, raw, n);
      } else if step.EncodedPcm? {
        DeliverStepOverrides(s, step.source, step.id, step.samples, step.peak, step.allowChallenge, src, d, raw, n);
      } else if step.UsersChanged? {
        UpdateRoutesOverrides(s.(env := s.env.(users := step.known)), s.order, src, d, raw, n);
      } else if step.OutputsChanged? {
        UpdateRoutesOverrides(s.(env := s.env.(outputs := step.current)), s.order, src, d, raw, n);
      } else {
        QuietOverrides(s, step, src, d, raw, n);
      }
    }
  }

  lemma NativeOverrides(s: State, step: Step, src: Source, d: DeviceId, raw: DeviceId, n: nat)
    requires StillOverrides(s, src, d, raw, n) && Repeats(s.env.outputs, src, raw)
    requires step.NativePcm? && Enabled(s, step)
    ensures StillOverrides(Apply(s, step), src, d, raw, n)
  {
    if s.env.running && Routable(step.source) {
      WithRouteOverrides(s, step.source, src, d, raw, n);
      DeliverStepOverrides(WithRoute(s, step.source), step.source, step.id, step.samples, step.peak, true, src, d, raw, n);
    }
  }

  lemma FrameOverrides(s: State, step: Step, src: Source, d: DeviceId, raw: DeviceId, n: nat)
    requires StillOverrides(s, src, d, raw, n) && Repeats(s.env.outputs, src, raw)
    requires step.EncodedFrame? && Enabled(s, step)
    ensures StillOverrides(Apply(s, step), src, d, raw, n)
  {
    if s.env.running && Routable(step.source) {
      WithRouteOverrides(s, step.source, src, d, raw, n);
    }
  }

  lemma QuietOverrides(s: State, step: Step, src: Source, d: DeviceId, raw: DeviceId, n: nat)
    requires StillOverrides(s, src, d, raw, n) && Enabled(s, step)
    requires !Delivers(step) && !step.UsersChanged? && !step.OutputsChanged?
    ensures StillOverrides(Apply(s, step), src, d, raw, n)
  {
  }

  lemma DeliveryKeepsEnv(s: State, step: Step)
    requires Delivers(step)
    ensures Apply(s, step).env == s.env
  {
  }

  lemma StepOutputs(s: State, step: Step)
    ensures Apply(s, step).env.outputs == if step.OutputsChanged? then step.current else s.env.outputs
  {
    if Delivers(step) {
      DeliveryKeepsEnv(s, step);
    } else if step.UsersChanged? {
      UpdateRoutesKeepsEnv(s.(env := s.env.(users := step.known)), s.order);
    } else if step.OutputsChanged? {
      UpdateRoutesKeepsEnv(s.(env := s.env.(outputs := step.current)), s.order);
    }
  }

  /**
   From a rebind on, through any run whose protocol updates only repeat the disproved
   owner or drop the mapping, the activity owner stays unless the source is rebound again.
   */
  lemma {:induction false} OverrideOutlastsRepeats(s: State, steps: seq<Step>, src: Source, d: DeviceId, raw: DeviceId, n: nat)
    requires StillOverrides(s, src, d, raw, n) && Repeats(s.env.outputs, src, raw)
    requires forall step | step in steps :: RepeatingStep(step, src, raw)
    ensures StillOverrides(Run(s, steps), src, d, raw, n) && Repeats(Run(s, steps).env.outputs, src, raw)
    decreases |steps|
  {
    if steps != [] {
      var front, last := steps[..|steps| - 1], steps[|steps| - 1];
      OverrideOutlastsRepeats(s, front, src, d, raw, n);
      StepOverrides(Run(s, front), last, src, d, raw, n);
      StepOutputs(Run(s, front), last);
    }
  }
}
