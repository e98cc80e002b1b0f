/**
 How starts and stops follow each other. The capture queue runs one start or stop at a
 time: a stop halts at once and cleans up before any later start, a start that throws
 ends with a stop, and a start that is superseded halts and hands over to the next one
 in the same turn of the event loop, in which no protocol message arrives. Over every
 such run every published block is attributed.
 */
module MeetLifecycle {
  import opened MeetState
  import opened MeetAttribution

  /** What happened to capture since it was last cleaned up. */
  datatype Mode = Clean | On | Halted | Overtaken

  /** A halted capture is overtaken when the protocol moves routes before the cleanup. */
  function After(mode: Mode, step: Step): Mode {
    match step
    case Start => On
    case Halt => if mode == On then Halted else mode
    case Cleanup => if mode == On then On else Clean
    case UsersChanged(_) => if mode == Halted then Overtaken else mode
    case OutputsChanged(_) => if mode == Halted then Overtaken else mode
    case _ => mode
  }

  function ModeOf(steps: seq<Step>): Mode
    decreases |steps|
  {
    if steps == [] then Clean else After(ModeOf(steps[..|steps| - 1]), steps[|steps| - 1])
  }

  /** Every start finds capture cleaned up, or takes over before the protocol moved a route. */
  predicate Lifecycle(steps: seq<Step>) {
    forall k | 0 <= k < |steps| && steps[k].Start? :: ModeOf(steps[..k]) != Overtaken
  }

  /** What the mode tells about the machine. */
  predicate ModeOk(s: State, mode: Mode) {
    && (mode == On <==> s.env.running)
    && (mode == Clean ==> NothingWaits(s))
    && (mode == Halted ==> PendingCurrent(s))
  }

  /** While capture is off, only the protocol moves routes. */
  lemma HaltedStep(s: State, step: Step)
    requires !s.env.running && PendingCurrent(s)
    requires !step.Start? && !step.UsersChanged? && !step.OutputsChanged?
    ensures PendingCurrent(Apply(s, step)) && !Apply(s, step).env.running
  {
  }

  lemma HaltKeepsCurrent(s: State)
    requires StateOk(s) && s.env.running
    ensures PendingCurrent(Apply(s, Halt))
  {
    forall src | src in s.lanes ensures PendingOfGeneration(s.lanes[src], s.lanes[src].route.generation) {
      assert LaneOk(s.env, s.registry, s.lanes[src]);
    }
  }

  lemma {:induction false} UpdatesKeepRunning(s: State, order: seq<Source>)
    ensures UpdateRoutes(s, order).env == s.env
    decreases |order|
  {
    if order != [] {
      UpdatesKeepRunning(
        if order[0] in s.lanes then Put(s, UpdateRoute(s.env, Desk(s.registry, s.lanes[order[0]]))) else s,
        order[1..]);
    }
  }

  lemma StepKeepsRunning(s: State, step: Step)
    requires !step.Start? && !step.Halt?
    ensures Apply(s, step).env.running == s.env.running
  {
    match step
    case UsersChanged(known) => UpdatesKeepRunning(s.(env := s.env.(users := known)), s.order);
    case OutputsChanged(current) => UpdatesKeepRunning(s.(env := s.env.(outputs := current)), s.order);
    case _ =>
  }

  lemma ModeStep(s: State, mode: Mode, step: Step)
    requires StateOk(s) && ModeOk(s, mode) && (step.Start? ==> mode != Overtaken)
    ensures Guarded(s, step) || s.env.running
    ensures ModeOk(Apply(s, step), After(mode, step))
  {
    if step.Halt? {
      if mode == On {
        HaltKeepsCurrent(s);
      }
    } else if !step.Start? {
      StepKeepsRunning(s, step);
      if mode == Clean {
        IdleStep(s, step);
      } else if mode == Halted && !step.UsersChanged? && !step.OutputsChanged? {
        HaltedStep(s, step);
      }
    }
  }

  /** A start while capture is on is no start. */
  lemma LifecycleStep(s: State, mode: Mode, step: Step)
    requires StateOk(s) && ModeOk(s, mode) && (step.Start? ==> mode != Overtaken)
    ensures StateOk(Apply(s, step)) && Guarded(s, step)
  {
    ModeStep(s, mode, step);
    if step.Start? && s.env.running {
      forall src | src in s.lanes ensures PendingOfGeneration(s.lanes[src], s.lanes[src].route.generation) {
        assert LaneOk(s.env, s.registry, s.lanes[src]);
      }
    }
    StepOk(s, step);
  }

  lemma LifecyclePrefix(steps: seq<Step>)
    requires Lifecycle(steps) && steps != []
    ensures Lifecycle(steps[..|steps| - 1])
    ensures steps[|steps| - 1].Start? ==> ModeOf(steps[..|steps| - 1]) != Overtaken
  {
    var front := steps[..|steps| - 1];
    forall k | 0 <= k < |front| && front[k].Start? ensures ModeOf(front[..k]) != Overtaken {
      assert front[..k] == steps[..k];
    }
  }

  /** The queue of starts and stops keeps every start guarded. */
  lemma {:induction false} LifecycleGuards(steps: seq<Step>)
    requires Lifecycle(steps)
    ensures GuardedRun(INITIAL, steps)
    ensures StateOk(Run(INITIAL, steps)) && ModeOk(Run(INITIAL, steps), ModeOf(steps))
    decreases |steps|
  {
    if steps != [] {
      var front := steps[..|steps| - 1];
      LifecyclePrefix(steps);
      LifecycleGuards(front);
      LifecycleStep(Run(INITIAL, front), ModeOf(front), steps[|steps| - 1]);
      ModeStep(Run(INITIAL, front), ModeOf(front), steps[|steps| - 1]);
    }
  }

  /**
   Over every run, each published block holds one owner's audio and is on that owner's
   channel; audio from before any owner was known is on the channel of the first one.
   */
  lemma EveryBlockIsAttributed(steps: seq<Step>)
    requires Lifecycle(steps)
    ensures Attributed(Run(INITIAL, steps))
  {
    LifecycleGuards(steps);
  }
}
