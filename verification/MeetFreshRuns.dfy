/**
 Over whole runs: an encoded block is justified by what was logged since the last reset
 exactly when the step that accepted it left the owner of the route alone. A step that
 changes the owner resets first and then publishes what it replays on the evidence from
 before the reset.
 */
module MeetFreshRuns {
  import opened Wrappers
  import opened MeetState
  import opened MeetFacts
  import opened MeetFresh
  import opened MeetReplay
  import A = PcmArbitration
  import R = MeetRuns

  ghost predicate FreshLanes(s: State) {
    forall src | src in s.lanes :: FreshOk(s.env, s.lanes[src])
  }

  ghost predicate FreshState(s: State) {
    FreshLanes(s) && forall src | src in s.lanes :: s.lanes[src].source == src && ChallengeOk(s.lanes[src])
  }

  /** The log of a source; a source without a route has none. */
  function LogOf(s: State, src: Source): Log {
    if src in s.lanes then s.lanes[src].ledger.log else []
  }

  function GenerationOf(s: State, src: Source): nat {
    if src in s.lanes then s.lanes[src].route.generation else 0
  }

  /** A step keeps the owner and publishes only what is justified, changes it and resets first, or forgets all. */
  ghost predicate LogStep(log: Log, log': Log, before: nat, after: nat) {
    || (after == before && (Clean(log, log') || ResetNow(log, log')))
    || (after > before && ResetFirst(log, log'))
  }

  ghost predicate Steps(s: State, s': State) {
    forall src :: LogStep(LogOf(s, src), LogOf(s', src), GenerationOf(s, src), GenerationOf(s', src))
  }

  // ---- Steps of one route ----

  lemma RouteStepsJoin(a: Lane, b: Lane, c: Lane)
    requires RouteStep(a, b) && RouteStep(b, c)
    ensures RouteStep(a, c)
  {
  }

  lemma {:induction false} UpdateRoutesFresh(s: State, order: seq<Source>)
    requires FreshState(s)
    ensures var s' := UpdateRoutes(s, order);
            && FreshState(s') && s'.lanes.Keys == s.lanes.Keys
            && forall src | src in s.lanes :: RouteStep(s.lanes[src], s'.lanes[src])
    decreases |order|
  {
    if order != [] {
      if order[0] in s.lanes {
        var s1 := Put(s, UpdateRoute(s.env, Desk(s.registry, s.lanes[order[0]])));
        PutUpdated(s, order[0]);
        UpdateRoutesFresh(s1, order[1..]);
        forall src | src in s.lanes ensures RouteStep(s.lanes[src], UpdateRoutes(s1, order[1..]).lanes[src]) {
          RouteStepsJoin(s.lanes[src], s1.lanes[src], UpdateRoutes(s1, order[1..]).lanes[src]);
        }
      } else {
        UpdateRoutesFresh(s, order[1..]);
      }
    }
  }

  lemma PutUpdated(s: State, changed: Source)
    requires FreshState(s) && changed in s.lanes
    ensures var s' := Put(s, UpdateRoute(s.env, Desk(s.registry, s.lanes[changed])));
            && FreshState(s') && s'.lanes.Keys == s.lanes.Keys
            && forall src | src in s.lanes :: RouteStep(s.lanes[src], s'.lanes[src])
  {
    var desk := Desk(s.registry, s.lanes[changed]);
    UpdateRouteResult(s.env, desk);
    UpdateReplays(s.env, desk);
    UpdateFresh(s.env, desk);
  }

  lemma RouteStepIsLogStep(lane: Lane, lane': Lane)
    requires RouteStep(lane, lane')
    ensures LogStep(lane.ledger.log, lane'.ledger.log, lane.route.generation, lane'.route.generation)
  {
  }

  lemma ProtocolStep(s: State, env: Env)
    requires FreshState(s) && env.now == s.env.now && env.entries == s.env.entries
    ensures var s' := UpdateRoutes(s.(env := env), s.order);
            FreshLanes(s') && Steps(s, s')
  {
    UpdateRoutesFresh(s.(env := env), s.order);
    var s' := UpdateRoutes(s.(env := env), s.order);
    forall src
      ensures LogStep(LogOf(s, src), LogOf(s', src), GenerationOf(s, src), GenerationOf(s', src))
    {
      if src in s.lanes {
        RouteStepIsLogStep(s.lanes[src], s'.lanes[src]);
      }
    }
  }

  // ---- Deliveries ----

  /** The route of a source before a delivery: the lane it had, or a new one. */
  function LaneBefore(s: State, src: Source): Lane {
    if src in s.lanes then s.lanes[src] else CreateRoute(s.env, s.registry, src).lane
  }

  lemma RouteForSourceFresh(s: State, src: Source)
    requires FreshState(s)
    ensures var lane := RouteForSource(s, src).lane;
            && lane.source == src && FreshOk(s.env, lane) && RouteStep(LaneBefore(s, src), lane)
    ensures LaneBefore(s, src).ledger.log == LogOf(s, src)
    ensures LaneBefore(s, src).route.generation == GenerationOf(s, src)
  {
    if src in s.lanes {
      UpdateRouteResult(s.env, Desk(s.registry, s.lanes[src]));
      UpdateFresh(s.env, Desk(s.registry, s.lanes[src]));
    } else {
      assert A.SinceReset(A.EMPTY_LEDGER) == A.EMPTY_LEDGER;
    }
  }

  lemma DeskSteps(a: Lane, b: Lane, c: Lane)
    requires RouteStep(a, b) && DeskStep(b, c)
    ensures LogStep(a.ledger.log, c.ledger.log, a.route.generation, c.route.generation)
  {
  }

  /** A frame is logged behind whatever the update of the route published. */
  lemma FrameStep(a: Lane, b: Lane, c: Lane, e: A.Event)
    requires RouteStep(a, b) && c.route == b.route && e.Frame? && c.ledger.log == b.ledger.log + [e]
    ensures LogStep(a.ledger.log, c.ledger.log, a.route.generation, c.route.generation)
  {
  }

  /** Replacing the lane of one source is all a delivery does to the logs. */
  lemma OneLane(s: State, s': State, src: Source, lane: Lane)
    requires FreshLanes(s) && s'.env == s.env
    requires s'.lanes == s.lanes[src := lane] && FreshOk(s.env, lane)
    requires LogStep(LogOf(s, src), lane.ledger.log, GenerationOf(s, src), lane.route.generation)
    ensures FreshLanes(s') && Steps(s, s')
  {
  }

  lemma WithRouteLanes(s: State, src: Source)
    requires FreshState(s)
    ensures var s1 := WithRoute(s, src);
            s1.env == s.env && s1.lanes == s.lanes[src := RouteForSource(s, src).lane]
  {
    RouteForSourceFresh(s, src);
  }

  lemma SelfStep(s: State, src: Source)
    requires FreshState(s)
    ensures FreshLanes(WithRoute(s, src)) && Steps(s, WithRoute(s, src))
  {
    var lane := RouteForSource(s, src).lane;
    WithRouteLanes(s, src);
    RouteForSourceFresh(s, src);
    RouteStepIsLogStep(LaneBefore(s, src), lane);
    OneLane(s, WithRoute(s, src), src, lane);
  }

  /** Putting a lane back behind the update of its route. */
  lemma RoutedStep(s: State, src: Source, desk: Desk)
    requires FreshState(s) && desk.lane.source == src && FreshOk(s.env, desk.lane)
    requires LogStep(LogOf(s, src), desk.lane.ledger.log, GenerationOf(s, src), desk.lane.route.generation)
    ensures FreshLanes(Put(WithRoute(s, src), desk)) && Steps(s, Put(WithRoute(s, src), desk))
  {
    WithRouteLanes(s, src);
    UpdatedTwice(s.lanes, src, RouteForSource(s, src).lane, desk.lane);
    OneLane(s, Put(WithRoute(s, src), desk), src, desk.lane);
  }

  lemma NativeStep(s: State, e: EntryId, src: Source, samples: seq<real>, peak: real, isSelf: bool)
    requires FreshState(s) && e in s.env.entries && s.env.entries[e].path == A.Native
    ensures var s' := ReceiveNative(s, e, src, samples, peak, isSelf);
            FreshLanes(s') && Steps(s, s')
  {
    SelfStep(s, src);
    if s.env.running && Routable(src) && !isSelf {
      var routed := RouteForSource(s, src);
      RouteForSourceFresh(s, src);
      DeliverFresh(s.env, routed, e, samples, peak, true);
      R.DeliverKeepsSource(s.env, routed, e, samples, peak, true);
      DeskSteps(LaneBefore(s, src), routed.lane, Deliver(s.env, routed, e, samples, peak, true).lane);
      RoutedStep(s, src, Deliver(s.env, routed, e, samples, peak, true));
    }
  }

  lemma EncodedStep(s: State, e: EntryId, src: Source, level: Option<real>, candidate: bool,
                    native: Option<EntryId>, isSelf: bool)
    requires FreshState(s) && LiveTap(s.env, e)
    ensures var s' := ReceiveEncoded(s, e, src, level, candidate, native, isSelf);
            FreshLanes(s') && Steps(s, s')
  {
    SelfStep(s, src);
    if s.env.running && Routable(src) && !isSelf {
      FrameArrives(s, src, s.env.entries[e].receiver, level.Some? && level.value >= A.AUDIBLE_LEVEL, candidate, native);
    }
  }

  lemma FrameArrives(s: State, src: Source, r: Receiver, audible: bool, candidate: bool, native: Option<EntryId>)
    requires FreshState(s) && r in TappedReceivers(s.env)
    ensures var s1 := WithRoute(s, src);
            var s' := Put(s1, Desk(s1.registry,
              ReceiveFrame(s.env, RouteForSource(s, src).lane, r, audible, candidate, native)));
            FreshLanes(s') && Steps(s, s')
  {
    var routed := RouteForSource(s, src).lane;
    var lane := ReceiveFrame(s.env, routed, r, audible, candidate, native);
    RouteForSourceFresh(s, src);
    FrameFresh(s.env, routed, r, audible, candidate, native);
    FrameStep(LaneBefore(s, src), routed, lane, A.Frame(r, s.env.now, audible, candidate));
    RoutedStep(s, src, Desk(WithRoute(s, src).registry, lane));
  }

  lemma DecodedStep(s: State, e: EntryId, src: Source, samples: seq<real>, peak: real, allowChallenge: bool)
    requires FreshState(s) && e in s.env.entries && src in s.lanes
    ensures var s' := ReceiveDecoded(s, e, src, samples, peak, allowChallenge);
            FreshLanes(s') && Steps(s, s')
  {
    var desk := Desk(s.registry, s.lanes[src]);
    if ReceiveDecoded(s, e, src, samples, peak, allowChallenge) != s {
      var lane := Deliver(s.env, desk, e, samples, peak, allowChallenge).lane;
      DeliverFresh(s.env, desk, e, samples, peak, allowChallenge);
      R.DeliverKeepsSource(s.env, desk, e, samples, peak, allowChallenge);
      DeskSteps(desk.lane, desk.lane, lane);
      OneLane(s, ReceiveDecoded(s, e, src, samples, peak, allowChallenge), src, lane);
    }
  }

  // ---- The other steps ----

  /** The arbitration is kept, loses states, or is wiped; routes stay. */
  ghost predicate Quiet(lane: Lane, lane': Lane) {
    && lane'.route == lane.route
    && (|| lane'.ledger == A.ForgetAll(lane.ledger)
        || (exists r :: lane'.ledger == A.ForgetReceiver(lane.ledger, r))
        || (lane'.ledger.log == lane.ledger.log
            && forall r | r in lane'.ledger.states ::
                 r in lane.ledger.states && lane'.ledger.states[r] == lane.ledger.states[r]))
  }

  lemma RestsLater(l: A.Ledger, r: Receiver, now: Time, later: Time)
    requires A.Rests(l, r, now) && now <= later
    ensures A.Rests(l, r, later)
  {
  }

  lemma QuietFresh(env: Env, env': Env, lane: Lane, lane': Lane)
    requires FreshOk(env, lane) && Quiet(lane, lane') && env.now <= env'.now
    requires forall r | r in lane'.ledger.states && r in TappedReceivers(env) :: r in TappedReceivers(env')
    ensures FreshOk(env', lane')
    ensures LogStep(lane.ledger.log, lane'.ledger.log, lane.route.generation, lane'.route.generation)
  {
    if lane'.ledger == A.ForgetAll(lane.ledger) {
      A.SinceAppends(lane.ledger.log, A.Forgotten({}));
    } else if x :| lane'.ledger == A.ForgetReceiver(lane.ledger, x) {
      A.SinceAppends(lane.ledger.log, A.Released(x));
      forall r ensures A.Rests(A.SinceReset(lane'.ledger), r, env'.now) {
        RestsLater(A.SinceReset(lane.ledger), r, env.now, env'.now);
        A.ReleaseRests(A.SinceReset(lane.ledger), x, r, env'.now);
      }
    } else {
      forall r ensures A.Rests(A.SinceReset(lane'.ledger), r, env'.now) {
        RestsLater(A.SinceReset(lane.ledger), r, env.now, env'.now);
      }
    }
  }

  /** Who is tapped stays tapped, unless the lane forgets it. */
  predicate KeepsTaps(s: State, s': State) {
    forall src, r | src in s'.lanes && r in s'.lanes[src].ledger.states && r in TappedReceivers(s.env) ::
      r in TappedReceivers(s'.env)
  }

  lemma QuietStates(s: State, s': State)
    requires FreshLanes(s) && s.env.now <= s'.env.now
    requires s'.lanes.Keys == s.lanes.Keys && forall src | src in s.lanes :: Quiet(s.lanes[src], s'.lanes[src])
    requires KeepsTaps(s, s')
    ensures FreshLanes(s') && Steps(s, s')
  {
    forall src | src in s'.lanes
      ensures FreshOk(s'.env, s'.lanes[src])
      ensures LogStep(LogOf(s, src), LogOf(s', src), GenerationOf(s, src), GenerationOf(s', src))
    {
      QuietFresh(s.env, s'.env, s.lanes[src], s'.lanes[src]);
    }
  }

  lemma TapsStay(env: Env, env': Env, r: Receiver)
    requires r in TappedReceivers(env)
    requires forall e | LiveTap(env, e) :: e in env'.entries && env'.entries[e] == env.entries[e]
    ensures r in TappedReceivers(env')
  {
    var e :| e in env.entries && LiveTap(env, e) && env.entries[e].receiver == r;
    assert LiveTap(env', e);
  }

  /** Releasing an entry leaves every other receiver tapped. */
  lemma OthersStayTapped(env: Env, id: EntryId, r: Receiver)
    requires id in env.entries && r in TappedReceivers(env)
    requires env.entries[id].path == A.Native || r != env.entries[id].receiver
    ensures r in TappedReceivers(env.(entries := env.entries[id := env.entries[id].(released := true)]))
  {
    var e :| e in env.entries && LiveTap(env, e) && env.entries[e].receiver == r;
    assert e != id;
    assert LiveTap(env.(entries := env.entries[id := env.entries[id].(released := true)]), e);
  }

  lemma ReleaseStep(s: State, id: EntryId)
    requires FreshState(s) && Live(s.env, id)
    ensures FreshLanes(ReleaseEntry(s, id)) && Steps(s, ReleaseEntry(s, id))
  {
    var s' := ReleaseEntry(s, id);
    forall src, r | src in s'.lanes && r in s'.lanes[src].ledger.states && r in TappedReceivers(s.env)
      ensures r in TappedReceivers(s'.env)
    {
      OthersStayTapped(s.env, id, r);
    }
    forall src | src in s.lanes ensures Quiet(s.lanes[src], s'.lanes[src]) {
      assert s'.lanes[src].ledger == s.lanes[src].ledger
          || s'.lanes[src].ledger == A.ForgetReceiver(s.lanes[src].ledger, s.env.entries[id].receiver);
    }
    QuietStates(s, s');
  }

  predicate Arrives(step: Step) {
    step.NativePcm? || step.EncodedFrame? || step.EncodedPcm? || step.UsersChanged? || step.OutputsChanged?
  }

  lemma QuietStep(s: State, step: Step)
    requires FreshState(s) && Enabled(s, step) && !Arrives(step) && !step.Release?
    ensures FreshLanes(Apply(s, step)) && Steps(s, Apply(s, step))
  {
    QuietLanes(s, step);
    QuietTaps(s, step);
    QuietStates(s, Apply(s, step));
  }

  lemma QuietLanes(s: State, step: Step)
    requires FreshState(s) && Enabled(s, step) && !Arrives(step) && !step.Release?
    ensures var s' := Apply(s, step);
            && s'.lanes.Keys == s.lanes.Keys && s.env.now <= s'.env.now
            && forall src | src in s.lanes :: Quiet(s.lanes[src], s'.lanes[src])
  {
  }

  lemma QuietTaps(s: State, step: Step)
    requires Enabled(s, step) && !Arrives(step) && !step.Release?
    ensures KeepsTaps(s, Apply(s, step))
  {
    forall r | r in TappedReceivers(s.env) ensures r in TappedReceivers(Apply(s, step).env) {
      TapsStay(s.env, Apply(s, step).env, r);
    }
  }

  lemma StepFresh(s: State, step: Step)
    requires FreshState(s)
    ensures FreshLanes(Apply(s, step)) && Steps(s, Apply(s, step))
  {
    if Enabled(s, step) {
      match step
      case NativePcm(id, source, samples, peak, isSelf) => NativeStep(s, id, source, samples, peak, isSelf);
      case EncodedFrame(id, source, level, candidate, native, isSelf) =>
        EncodedStep(s, id, source, level, candidate, native, isSelf);
      case EncodedPcm(id, source, samples, peak, allowChallenge) => DecodedStep(s, id, source, samples, peak, allowChallenge);
      case UsersChanged(known) => ProtocolStep(s, s.env.(users := known));
      case OutputsChanged(current) => ProtocolStep(s, s.env.(outputs := current));
      case Release(id) => ReleaseStep(s, id);
      case _ => QuietStep(s, step);
    }
  }

  lemma {:induction false} RunFresh(steps: seq<Step>)
    ensures FreshState(Run(INITIAL, steps))
    decreases |steps|
  {
    R.RunInv(steps);
    if steps != [] {
      RunFresh(steps[..|steps| - 1]);
      StepFresh(Run(INITIAL, steps[..|steps| - 1]), steps[|steps| - 1]);
    }
  }

  // ---- What a log without frames justifies ----

  lemma {:induction false} NoFrameSince(log: Log, k: nat)
    requires k < |log| && log[k].Forgotten? && forall j | k < j < |log| :: !log[j].Frame?
    ensures forall e | e in A.Since(log) :: !e.Frame?
    decreases |log|
  {
    if !log[|log| - 1].Forgotten? {
      NoFrameSince(log[..|log| - 1], k);
    }
  }

  lemma NothingHeard(log: Log, r: Receiver)
    requires forall e | e in log :: !e.Frame?
    ensures !A.Justified(log, r)
  {
    forall k | 0 <= k < |log| ensures !A.IsFrameOf(log[k], r) {
      assert log[k] in log;
    }
  }

  // ---- Main results ----

  /**
   After every run, an encoded block that the next step accepts is justified by what was
   logged since the last reset exactly when that step leaves the owner of the route alone.
   */
  lemma FreshExactly(steps: seq<Step>, step: Step, src: Source, i: nat)
    requires var s := Run(INITIAL, steps); var log' := LogOf(Apply(s, step), src);
             |LogOf(s, src)| <= i < |log'| && IsEncodedBlock(log'[i])
    ensures var s := Run(INITIAL, steps); var s' := Apply(s, step); var log' := LogOf(s', src);
            A.Justified(A.Since(log'[..i]), log'[i].receiver) <==> GenerationOf(s', src) == GenerationOf(s, src)
  {
    var s := Run(INITIAL, steps);
    RunFresh(steps);
    StepFresh(s, step);
    LogStepExactly(LogOf(s, src), LogOf(Apply(s, step), src), GenerationOf(s, src), GenerationOf(Apply(s, step), src), i);
  }

  lemma LogStepExactly(log: Log, log': Log, before: nat, after: nat, i: nat)
    requires LogStep(log, log', before, after) && |log| <= i < |log'| && IsEncodedBlock(log'[i])
    ensures A.Justified(A.Since(log'[..i]), log'[i].receiver) <==> after == before
  {
    if after > before {
      NoFrameSince(log'[..i], |log|);
      NothingHeard(A.Since(log'[..i]), log'[i].receiver);
    }
  }

  lemma {:induction false} LogsGrow(steps: seq<Step>, n: nat, src: Source)
    requires n <= |steps|
    ensures LogOf(Run(INITIAL, steps[..n]), src) <= LogOf(Run(INITIAL, steps), src)
    decreases |steps|
  {
    if n == |steps| {
      assert steps[..n] == steps;
    } else {
      var front, last := steps[..|steps| - 1], steps[|steps| - 1];
      assert front[..n] == steps[..n];
      LogsGrow(front, n, src);
      RunFresh(front);
      StepFresh(Run(INITIAL, front), last);
      LogStepGrows(LogOf(Run(INITIAL, front), src), LogOf(Run(INITIAL, steps), src),
        GenerationOf(Run(INITIAL, front), src), GenerationOf(Run(INITIAL, steps), src));
    }
  }

  lemma LogStepGrows(log: Log, log': Log, before: nat, after: nat)
    requires LogStep(log, log', before, after)
    ensures log <= log'
  {
  }

  /** The entry `i` of the log of a source was written by step `n`. */
  predicate WrittenIn(steps: seq<Step>, n: nat, src: Source, i: nat) {
    n < |steps| && |LogOf(Run(INITIAL, steps[..n]), src)| <= i < |LogOf(Run(INITIAL, steps[..n + 1]), src)|
  }

  predicate KeepsOwner(steps: seq<Step>, n: nat, src: Source)
    requires n < |steps|
  {
    GenerationOf(Run(INITIAL, steps[..n + 1]), src) == GenerationOf(Run(INITIAL, steps[..n]), src)
  }

  lemma {:induction false} SomeStepWrote(steps: seq<Step>, src: Source, i: nat)
    requires i < |LogOf(Run(INITIAL, steps), src)|
    ensures exists n: nat :: WrittenIn(steps, n, src, i)
    decreases |steps|
  {
    var front := steps[..|steps| - 1];
    if i < |LogOf(Run(INITIAL, front), src)| {
      SomeStepWrote(front, src, i);
      var n: nat :| WrittenIn(front, n, src, i);
      assert front[..n] == steps[..n] && front[..n + 1] == steps[..n + 1];
      assert WrittenIn(steps, n, src, i);
    } else {
      assert steps[..|steps| - 1 + 1] == steps;
      assert WrittenIn(steps, |steps| - 1, src, i);
    }
  }

  /**
   Over every run, each encoded block was written by a step, and it is justified by what was
   logged since the last reset before it exactly when that step left the owner alone.
   */
  lemma EncodedIsFreshExactly(steps: seq<Step>, src: Source, i: nat)
    requires i < |LogOf(Run(INITIAL, steps), src)| && IsEncodedBlock(LogOf(Run(INITIAL, steps), src)[i])
    ensures exists n: nat :: WrittenIn(steps, n, src, i)
    ensures var log := LogOf(Run(INITIAL, steps), src);
            forall n: nat | WrittenIn(steps, n, src, i) ::
              A.Justified(A.Since(log[..i]), log[i].receiver) <==> KeepsOwner(steps, n, src)
  {
    var log := LogOf(Run(INITIAL, steps), src);
    SomeStepWrote(steps, src, i);
    forall n: nat | WrittenIn(steps, n, src, i)
      ensures A.Justified(A.Since(log[..i]), log[i].receiver) <==> KeepsOwner(steps, n, src)
    {
      WrittenExactly(steps, n, src, i);
    }
  }

  lemma StepOfRun(steps: seq<Step>, n: nat, src: Source)
    requires n < |steps|
    ensures var s, s' := Run(INITIAL, steps[..n]), Run(INITIAL, steps[..n + 1]);
            LogStep(LogOf(s, src), LogOf(s', src), GenerationOf(s, src), GenerationOf(s', src))
  {
    RunFresh(steps[..n]);
    StepFresh(Run(INITIAL, steps[..n]), steps[n]);
    assert steps[..n + 1] == steps[..n] + [steps[n]];
    RunStep(INITIAL, steps[..n], steps[n]);
  }

  /** The step from `mid` to `mid'` wrote the entry `i` of a log that goes on. */
  lemma WrittenBetween(mid: Log, mid': Log, before: nat, after: nat, log: Log, i: nat)
    requires LogStep(mid, mid', before, after) && mid' <= log
    requires |mid| <= i < |mid'| && IsEncodedBlock(log[i])
    ensures A.Justified(A.Since(log[..i]), log[i].receiver) <==> after == before
  {
    assert log[..i] == mid'[..i] && log[i] == mid'[i];
    LogStepExactly(mid, mid', before, after, i);
  }

  lemma WrittenExactly(steps: seq<Step>, n: nat, src: Source, i: nat)
    requires WrittenIn(steps, n, src, i)
    requires i < |LogOf(Run(INITIAL, steps), src)| && IsEncodedBlock(LogOf(Run(INITIAL, steps), src)[i])
    ensures var log := LogOf(Run(INITIAL, steps), src);
            A.Justified(A.Since(log[..i]), log[i].receiver) <==> KeepsOwner(steps, n, src)
  {
    var s, s' := Run(INITIAL, steps[..n]), Run(INITIAL, steps[..n + 1]);
    StepOfRun(steps, n, src);
    LogsGrow(steps, n + 1, src);
    WrittenBetween(LogOf(s, src), LogOf(s', src), GenerationOf(s, src), GenerationOf(s', src),
      LogOf(Run(INITIAL, steps), src), i);
  }
}
