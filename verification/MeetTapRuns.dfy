/**
 One encoded tap together with the routing machine it feeds: the tap's page is the machine,
 and what the tap accepts becomes a step of the machine. A frame that is accepted belongs
 to the owner its route had when the frame arrived, and what is published of it is on that
 owner's channel.
 */
module MeetTapRuns {
  import opened Wrappers
  import opened MeetState
  import opened MeetFacts
  import opened MeetAttribution
  import opened MeetChannels
  import opened MeetLifecycle
  import A = PcmArbitration
  import D = MeetDecoder
  import P = MeetReplay
  import R = MeetRuns

  /** `done` is what the machine has done so far. */
  datatype Joint = Joint(meet: State, tap: D.Tap, done: seq<Step>)

  datatype JointStep =
    | OnPage(step: Step)
    | OnTap(tapStep: D.Step)
    | OnOutput(index: nat, samples: seq<real>, peak: real)

  const START := Joint(INITIAL, D.NEW_TAP, [])

  /** What the tap sees of the machine. */
  function PageOf(s: State): D.Page {
    D.Page(s.env.running, map src | src in s.lanes :: s.lanes[src].route.generation)
  }

  /** An owner change empties the queue of its source, a start or a stop resets the tap. */
  function TapAfter(t: D.Tap, before: State, after: State, step: Step): D.Tap {
    if step.Start? || step.Cleanup? then D.ResetDecoder(t).(fallback := map[])
    else
      t.(fallback := map src | src in t.fallback
                            && D.GenerationOf(PageOf(after), src) == D.GenerationOf(PageOf(before), src) :: t.fallback[src])
  }

  /** Steps of the machine that are not this tap's own output. */
  predicate Foreign(id: EntryId, step: Step) {
    !(step.EncodedPcm? && step.id == id)
  }

  predicate TapOnly(step: D.Step) {
    !step.SetRunning? && !step.OwnerChanged? && !step.Restart? && !step.Deliver?
  }

  function OnMachine(j: Joint, step: Step): Joint {
    var meet := Apply(j.meet, step);
    Joint(meet, TapAfter(j.tap, j.meet, meet, step), j.done + [step])
  }

  predicate Publishable(s: State, id: EntryId, src: Source) {
    src in s.lanes && id in s.env.entries && A.CanPublish(s.lanes[src].ledger, s.env.entries[id].receiver)
  }

  /** The answer of the tap to an output, with the arbitration of the machine. */
  function Answer(j: Joint, id: EntryId, index: nat): (D.Tap, Option<D.Pending>)
    requires index < |j.tap.submissions|
  {
    var s := j.tap.submissions[index];
    D.Output(j.tap, PageOf(j.meet), Publishable(j.meet, id, s.frame.source), s)
  }

  function ApplyJoint(j: Joint, id: EntryId, step: JointStep): Joint {
    match step
    case OnPage(s) => if Foreign(id, s) then OnMachine(j, s) else j
    case OnTap(s) => if TapOnly(s) then j.(tap := D.Apply(D.State(j.tap, PageOf(j.meet)), s).tap) else j
    case OnOutput(index, samples, peak) =>
      if index >= |j.tap.submissions| then j
      else
        var (tap, accepted) := Answer(j, id, index);
        var taken := j.(tap := tap);
        if accepted.None? then taken
        else OnMachine(taken, EncodedPcm(id, accepted.value.source, samples, peak, accepted.value.allowChallenge))
  }

  function RunJoint(id: EntryId, steps: seq<JointStep>): Joint {
    if steps == [] then START
    else ApplyJoint(RunJoint(id, steps[..|steps| - 1]), id, steps[|steps| - 1])
  }

  // ---- Invariant ----

  /** The machine took its steps, and the tap is fenced by its routes. */
  predicate JointOk(j: Joint) {
    && j.meet == Run(INITIAL, j.done)
    && D.TapOk(j.tap) && D.GenerationsOk(j.tap.submissions, PageOf(j.meet))
  }

  lemma TapAfterOk(t: D.Tap, before: State, after: State, step: Step)
    requires D.TapOk(t)
    ensures var t' := TapAfter(t, before, after, step);
            D.TapOk(t') && t'.submissions == t.submissions
  {
    D.QuietOk(t, TapAfter(t, before, after, step));
  }

  /** Generations never go back, so no submission gets ahead of its route. */
  lemma GenerationsStay(submissions: seq<D.Submission>, before: State, after: State)
    requires D.GenerationsOk(submissions, PageOf(before))
    requires ChannelsOk(before) && ChannelsOk(after) && Continues(before, after)
    ensures D.GenerationsOk(submissions, PageOf(after))
  {
    forall src | src in before.lanes
      ensures D.GenerationOf(PageOf(before), src) <= D.GenerationOf(PageOf(after), src)
    {
      assert OwnersMatch(before.lanes[src]) && OwnersMatch(after.lanes[src]);
    }
  }

  lemma MachineOk(j: Joint, step: Step)
    requires JointOk(j)
    ensures JointOk(OnMachine(j, step))
    ensures Continues(j.meet, OnMachine(j, step).meet)
  {
    RunStep(INITIAL, j.done, step);
    RunChannels(INITIAL, j.done);
    StepChannels(j.meet, step);
    TapAfterOk(j.tap, j.meet, Apply(j.meet, step), step);
    GenerationsStay(j.tap.submissions, j.meet, Apply(j.meet, step));
  }

  lemma TapStepOk(j: Joint, step: D.Step)
    requires JointOk(j) && TapOnly(step)
    ensures JointOk(j.(tap := D.Apply(D.State(j.tap, PageOf(j.meet)), step).tap))
  {
    D.StepOk(D.State(j.tap, PageOf(j.meet)), step);
    D.StepGrows(D.State(j.tap, PageOf(j.meet)), step, "");
  }

  lemma AnswerOk(j: Joint, id: EntryId, index: nat)
    requires JointOk(j) && index < |j.tap.submissions|
    ensures JointOk(j.(tap := Answer(j, id, index).0))
  {
    D.OutputOk(j.tap, PageOf(j.meet), Publishable(j.meet, id, j.tap.submissions[index].frame.source), index);
  }

  lemma OutputStepOk(j: Joint, id: EntryId, index: nat, samples: seq<real>, peak: real)
    requires JointOk(j) && index < |j.tap.submissions|
    ensures var j' := ApplyJoint(j, id, OnOutput(index, samples, peak));
            JointOk(j') && Continues(j.meet, j'.meet)
  {
    AnswerOk(j, id, index);
    var (tap, accepted) := Answer(j, id, index);
    if accepted.Some? {
      MachineOk(j.(tap := tap), EncodedPcm(id, accepted.value.source, samples, peak, accepted.value.allowChallenge));
    }
  }

  lemma JointStepOk(j: Joint, id: EntryId, step: JointStep)
    requires JointOk(j)
    ensures JointOk(ApplyJoint(j, id, step)) && Continues(j.meet, ApplyJoint(j, id, step).meet)
  {
    match step
    case OnPage(s) => MachineOk(j, s);
    case OnTap(s) =>
      if TapOnly(s) {
        TapStepOk(j, s);
      }
    case OnOutput(index, samples, peak) =>
      if index < |j.tap.submissions| {
        OutputStepOk(j, id, index, samples, peak);
      }
  }

  lemma {:induction false} JointRunOk(id: EntryId, steps: seq<JointStep>)
    ensures JointOk(RunJoint(id, steps))
    decreases |steps|
  {
    if steps != [] {
      JointRunOk(id, steps[..|steps| - 1]);
      JointStepOk(RunJoint(id, steps[..|steps| - 1]), id, steps[|steps| - 1]);
    }
  }

  // ---- Main results ----

  /**
   Over every joint run, an accepted frame finds its route still in the generation in which
   it arrived, so the owner of then is the owner now.
   */
  lemma AcceptedFrameKeepsItsOwner(id: EntryId, steps: seq<JointStep>, index: nat)
    requires index < |RunJoint(id, steps).tap.submissions|
    requires Answer(RunJoint(id, steps), id, index).1.Some?
    ensures var j := RunJoint(id, steps);
            var frame, pending := j.tap.submissions[index].frame, Answer(j, id, index).1.value;
            && pending == D.PendingOf(frame) && frame.source in j.meet.lanes
            && j.meet.lanes[frame.source].route.generation == frame.generation
            && frame.generation < |j.meet.lanes[frame.source].history.owners|
            && j.meet.lanes[frame.source].history.owners[frame.generation] == j.meet.lanes[frame.source].route.deviceId
  {
    var j := RunJoint(id, steps);
    JointRunOk(id, steps);
    RunChannels(INITIAL, j.done);
    assert D.Fenced(j.tap, j.tap.submissions[index]);
    assert OwnersMatch(j.meet.lanes[j.tap.submissions[index].frame.source]);
  }

  lemma RunJointStep(id: EntryId, steps: seq<JointStep>, step: JointStep)
    ensures RunJoint(id, steps + [step]) == ApplyJoint(RunJoint(id, steps), id, step)
  {
    assert (steps + [step])[..|steps|] == steps;
  }

  lemma {:induction false} JointContinues(id: EntryId, steps: seq<JointStep>, later: seq<JointStep>)
    ensures Continues(RunJoint(id, steps).meet, RunJoint(id, steps + later).meet)
    decreases |later|
  {
    if later == [] {
      assert steps + later == steps;
    } else {
      var n := |later| - 1;
      JointContinues(id, steps, later[..n]);
      assert steps + later == (steps + later[..n]) + [later[n]];
      RunJointStep(id, steps + later[..n], later[n]);
      JointRunOk(id, steps + later[..n]);
      JointStepOk(RunJoint(id, steps + later[..n]), id, later[n]);
      ContinuesOn(RunJoint(id, steps).meet, RunJoint(id, steps + later[..n]).meet, RunJoint(id, steps + later).meet);
    }
  }

  /** All audio of one generation that ever goes out on the lane is on the channel of `d`. */
  predicate GoesTo(s: State, src: Source, generation: nat, d: DeviceId) {
    src in s.lanes && forall a, k | a in s.lanes[src].posted && 0 <= k < |a.block| && a.block[k].generation == generation ::
      OnChannelOf(s.registry.channels, a.channel, d)
  }

  /** Whatever happens later, audio of a generation goes out on the channel of the owner of that generation. */
  lemma AudioGoesToOwner(before: State, done: seq<Step>, src: Source, generation: nat)
    requires Lifecycle(done) && Continues(before, Run(INITIAL, done))
    requires src in before.lanes && generation < |before.lanes[src].history.owners|
    requires before.lanes[src].history.owners[generation] != NO_DEVICE
    ensures GoesTo(Run(INITIAL, done), src, generation, before.lanes[src].history.owners[generation])
  {
    var after, d := Run(INITIAL, done), before.lanes[src].history.owners[generation];
    EveryBlockIsAttributed(done);
    forall a, k | a in after.lanes[src].posted && 0 <= k < |a.block| && a.block[k].generation == generation
      ensures OnChannelOf(after.registry.channels, a.channel, d)
    {
      assert Placed(after.registry.channels, after.lanes[src].history.owners, a);
    }
  }

  /**
   Audio is stamped with the generation of its route when it is published. Whatever happens
   later, audio of the generation in which an accepted frame arrived goes out on the
   channel of the owner the route had when the frame arrived.
   */
  lemma AcceptedAudioGoesToItsOwner(id: EntryId, steps: seq<JointStep>, index: nat, later: seq<JointStep>)
    requires index < |RunJoint(id, steps).tap.submissions|
    requires Answer(RunJoint(id, steps), id, index).1.Some?
    requires Lifecycle(RunJoint(id, steps + later).done)
    ensures var frame := RunJoint(id, steps).tap.submissions[index].frame;
            var meet, meet' := RunJoint(id, steps).meet, RunJoint(id, steps + later).meet;
            && frame.source in meet.lanes
            && (meet.lanes[frame.source].route.deviceId != NO_DEVICE ==>
                  GoesTo(meet', frame.source, frame.generation, meet.lanes[frame.source].route.deviceId))
  {
    AcceptedFrameKeepsItsOwner(id, steps, index);
    JointRunOk(id, steps + later);
    JointContinues(id, steps, later);
    var frame, meet := RunJoint(id, steps).tap.submissions[index].frame, RunJoint(id, steps).meet;
    if meet.lanes[frame.source].route.deviceId != NO_DEVICE {
      AudioGoesToOwner(meet, RunJoint(id, steps + later).done, frame.source, frame.generation);
    }
  }

  lemma AcceptedNow(j: Joint, id: EntryId, index: nat)
    requires JointOk(j) && index < |j.tap.submissions| && Answer(j, id, index).1.Some?
    ensures var frame := j.tap.submissions[index].frame;
            && Answer(j, id, index).1.value == D.PendingOf(frame) && j.meet.env.running
            && frame.source in j.meet.lanes && j.meet.lanes[frame.source].source == frame.source
            && j.meet.lanes[frame.source].route.generation == frame.generation
            && id in j.meet.env.entries
            && A.CanPublish(j.meet.lanes[frame.source].ledger, j.meet.env.entries[id].receiver)
  {
    assert D.Fenced(j.tap, j.tap.submissions[index]);
    RunChannels(INITIAL, j.done);
  }

  /** Whether the machine publishes, holds or drops a chunk, or the challenger takes it. */
  lemma DeliveredIsFollowed(env: Env, desk: Desk, id: EntryId, samples: seq<real>, peak: real, allowChallenge: bool)
    ensures var (correlated, decision) := Correlate(env, desk, peak, allowChallenge);
            var lane := Deliver(env, desk, id, samples, peak, allowChallenge).lane;
            && lane.source == desk.lane.source
            && (decision != Rebind ==> correlated.lane.route == desk.lane.route)
            && (decision == Send ==> lane == PushPcm(env, correlated.lane, id, samples))
            && (decision == Hold ==> EndsWith(lane.challengeAudio, Chunk(id, samples)))
            && (decision == Drop ==> lane == correlated.lane)
  {
    CorrelateResult(env, desk, peak, allowChallenge);
    R.DeliverKeepsSource(env, desk, id, samples, peak, allowChallenge);
    HeldLast(Correlate(env, desk, peak, allowChallenge).0.lane, id, samples);
  }

  predicate EndsWith(audio: seq<Chunk>, c: Chunk) {
    audio != [] && audio[|audio| - 1] == c
  }

  /**
   An accepted output is delivered to the route its frame arrived on, in the generation it
   arrived in: unless a challenger wins with it, it is published, held or dropped as audio
   of that generation.
   */
  lemma AcceptedIsDelivered(j: Joint, id: EntryId, index: nat, samples: seq<real>, peak: real)
    requires JointOk(j) && index < |j.tap.submissions| && Answer(j, id, index).1.Some?
    requires LiveTap(j.meet.env, id)
    ensures var frame, env, meet' := j.tap.submissions[index].frame, j.meet.env,
                                     ApplyJoint(j, id, OnOutput(index, samples, peak)).meet;
            && frame.source in j.meet.lanes
            && var desk := Desk(j.meet.registry, j.meet.lanes[frame.source]);
               && desk.lane.route.generation == frame.generation
               && meet' == Put(j.meet, Deliver(env, desk, id, samples, peak, frame.allowChallenge))
  {
    AcceptedNow(j, id, index);
    var frame := j.tap.submissions[index].frame;
    DecodedStep(j.meet, id, frame.source, samples, peak, frame.allowChallenge);
  }

  lemma DecodedStep(s: State, id: EntryId, src: Source, samples: seq<real>, peak: real, allowChallenge: bool)
    requires s.env.running && LiveTap(s.env, id) && src in s.lanes
    requires A.CanPublish(s.lanes[src].ledger, s.env.entries[id].receiver)
    ensures Apply(s, EncodedPcm(id, src, samples, peak, allowChallenge)) ==
            Put(s, Deliver(s.env, Desk(s.registry, s.lanes[src]), id, samples, peak, allowChallenge))
  {
  }

  lemma HeldLast(lane: Lane, e: EntryId, samples: seq<real>)
    ensures EndsWith(HoldPcm(lane, e, samples).challengeAudio, Chunk(e, samples))
  {
    TrimKeepsLast(lane.challengeAudio + [Chunk(e, samples)], lane.challengeSamples + |samples|);
  }

  lemma {:induction false} TrimKeepsLast(audio: seq<Chunk>, total: int)
    requires audio != []
    ensures var kept := TrimChallenge(audio, total).0;
            kept != [] && kept[|kept| - 1] == audio[|audio| - 1]
    decreases |audio|
  {
    if total > CHALLENGE_SAMPLES && |audio| > 1 {
      TrimKeepsLast(audio[1..], total - |audio[0].samples|);
    }
  }

  /** Where the samples of an accepted output went: `before` and `lane` are its lane around the output. */
  predicate WentTo(env: Env, before: Lane, correlated: Lane, lane: Lane, decision: Decision, id: EntryId, samples: seq<real>) {
    match decision
    case Send => correlated.route == before.route && lane == PushPcm(env, correlated, id, samples)
    case Hold => lane.route == before.route && EndsWith(lane.challengeAudio, Chunk(id, samples))
    case Drop => SameAudio(before, lane) && lane.challengeAudio == []
    case Rebind =>
      && correlated.route.generation == before.route.generation + 1
      && correlated.route.deviceId in Candidates(env.users, env.active)
      && lane == PushPcm(env, FlushChallenge(env, correlated), id, samples)
  }

  lemma DeliveredWentTo(env: Env, desk: Desk, id: EntryId, samples: seq<real>, peak: real, allowChallenge: bool)
    requires DeskKept(desk)
    ensures var (correlated, decision) := Correlate(env, desk, peak, allowChallenge);
            WentTo(env, desk.lane, correlated.lane,
              Deliver(env, desk, id, samples, peak, allowChallenge).lane, decision, id, samples)
  {
    CorrelateResult(env, desk, peak, allowChallenge);
    CorrelateChannels(env, desk, peak, allowChallenge);
    DeliveredIsFollowed(env, desk, id, samples, peak, allowChallenge);
    if Correlate(env, desk, peak, allowChallenge).1 != Rebind {
      CorrelateKeepsAudio(env, desk, peak, allowChallenge);
      DropForgets(env, desk, peak, allowChallenge);
    }
  }

  lemma DropForgets(env: Env, desk: Desk, peak: real, allowChallenge: bool)
    ensures var (correlated, decision) := Correlate(env, desk, peak, allowChallenge);
            decision == Drop ==> correlated.lane.challengeAudio == []
  {
  }

  /** What every later state of the machine does with the samples. */
  predicate StaysWith(after: State, src: Source, before: Lane, correlated: Lane, decision: Decision) {
    match decision
    case Send => before.route.deviceId != NO_DEVICE ==> GoesTo(after, src, before.route.generation, before.route.deviceId)
    case Hold => src in after.lanes && forall p | p in after.lanes[src].history.replays :: P.ReplayOk(p)
    case Drop => true
    case Rebind => GoesTo(after, src, before.route.generation + 1, correlated.route.deviceId)
  }

  lemma SamplesStay(env: Env, desk: Desk, id: EntryId, samples: seq<real>, peak: real, allowChallenge: bool,
                    now: State, done: seq<Step>)
    requires DeskKept(desk) && desk.lane.source in now.lanes
    requires now.lanes[desk.lane.source] == Deliver(env, desk, id, samples, peak, allowChallenge).lane
    requires Lifecycle(done) && Continues(now, Run(INITIAL, done))
    ensures var (correlated, decision) := Correlate(env, desk, peak, allowChallenge);
            StaysWith(Run(INITIAL, done), desk.lane.source, desk.lane, correlated.lane, decision)
  {
    var (correlated, decision) := Correlate(env, desk, peak, allowChallenge);
    var src, lane := desk.lane.source, now.lanes[desk.lane.source];
    DeliverChannels(env, desk, id, samples, peak, allowChallenge);
    CorrelateResult(env, desk, peak, allowChallenge);
    CorrelateChannels(env, desk, peak, allowChallenge);
    match decision
    case Send =>
      PushKeeps(env, correlated.lane, id, samples);
      if desk.lane.route.deviceId != NO_DEVICE {
        AudioGoesToOwner(now, done, src, desk.lane.route.generation);
      }
    case Hold => R.RunInv(done);
    case Drop =>
    case Rebind =>
      FlushKeeps(env, correlated.lane);
      PushKeeps(env, FlushChallenge(env, correlated.lane), id, samples);
      CandidateIsNamed(env, correlated.lane.route.deviceId);
      AudioGoesToOwner(now, done, src, desk.lane.route.generation + 1);
  }

  lemma CandidateIsNamed(env: Env, d: DeviceId)
    requires d in Candidates(env.users, env.active)
    ensures d != NO_DEVICE
  {
  }

  /**
   The samples of an accepted output, over every joint run. They are pushed under the owner
   their frame arrived for and go out only on that owner's channel; or they are held, and
   replayed at most to the challenger; or dropped, and nothing of them is kept; or the
   challenger wins with them, and they go out only on the challenger's channel.
   */
  lemma AcceptedSamplesAreFollowed(id: EntryId, steps: seq<JointStep>, index: nat, samples: seq<real>, peak: real,
                                   later: seq<JointStep>)
    requires index < |RunJoint(id, steps).tap.submissions|
    requires Answer(RunJoint(id, steps), id, index).1.Some? && LiveTap(RunJoint(id, steps).meet.env, id)
    requires Lifecycle(RunJoint(id, steps + [OnOutput(index, samples, peak)] + later).done)
    ensures var frame, meet := RunJoint(id, steps).tap.submissions[index].frame, RunJoint(id, steps).meet;
            && frame.source in meet.lanes && meet.lanes[frame.source].route.generation == frame.generation
            && var now := RunJoint(id, steps + [OnOutput(index, samples, peak)]).meet;
               var after := RunJoint(id, steps + [OnOutput(index, samples, peak)] + later).meet;
               var before := meet.lanes[frame.source];
               var (correlated, decision) := Correlate(meet.env, Desk(meet.registry, before), peak, frame.allowChallenge);
               && frame.source in now.lanes
               && WentTo(meet.env, before, correlated.lane, now.lanes[frame.source], decision, id, samples)
               && StaysWith(after, frame.source, before, correlated.lane, decision)
  {
    var j, output := RunJoint(id, steps), OnOutput(index, samples, peak);
    var frame := j.tap.submissions[index].frame;
    JointRunOk(id, steps);
    RunChannels(INITIAL, j.done);
    AcceptedIsDelivered(j, id, index, samples, peak);
    RunJointStep(id, steps, output);
    var desk := Desk(j.meet.registry, j.meet.lanes[frame.source]);
    DeliveredWentTo(j.meet.env, desk, id, samples, peak, frame.allowChallenge);
    R.DeliverKeepsSource(j.meet.env, desk, id, samples, peak, frame.allowChallenge);
    JointContinues(id, steps + [output], later);
    JointRunOk(id, steps + [output] + later);
    SamplesStay(j.meet.env, desk, id, samples, peak, frame.allowChallenge,
      RunJoint(id, steps + [output]).meet, RunJoint(id, steps + [output] + later).done);
  }
}
