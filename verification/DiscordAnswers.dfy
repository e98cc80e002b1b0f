/**
 When silence is answered. While the recovery task takes every request, an announcement
 that is followed by nothing of the user for 6 s leads to a request, unless one is
 outstanding, another one was made within 30 s, or the user had three; the same of a lost
 driver, without the 30 s.
 */
module DiscordAnswers {
  import opened Wrappers
  import opened DiscordReceiver

  /** The recovery task takes every request that is handed out. */
  predicate Reachable(steps: seq<Step>) {
    forall step | step in steps :: (step.Wake? ==> step.open) && (step.DriverDown? ==> step.reachable)
  }

  /** Driver requests since somebody was last heard. */
  function DriverRequests(log: seq<LogEntry>): nat {
    if log == [] then 0
    else
      var last := log[|log| - 1];
      if last.Decoded? then 0
      else DriverRequests(log[..|log| - 1]) + if last.Request? && last.cause.Driver? then 1 else 0
  }

  function RequestsFor(log: seq<LogEntry>, cause: Cause): nat {
    match cause
    case Participant(user) => RequestsSinceReset(log, user)
    case Driver => DriverRequests(log)
  }

  // ---- The control is what the log says ----

  function Capped(attempts: nat): nat {
    if attempts > MAX_RECOVERY_ATTEMPTS then MAX_RECOVERY_ATTEMPTS else attempts
  }

  function CooldownAfter(at: Option<Time>): Option<Time> {
    if at.Some? then Some(at.value + RECOVERY_COOLDOWN) else None
  }

  ghost predicate ControlExact(c: Control, log: seq<LogEntry>) {
    && Outstanding(log) == (if c.inProgress then 1 else 0)
    && c.cooldownUntil == CooldownAfter(LastParticipantRequest(log))
    && forall cause: Cause :: Capped(AttemptsOf(c, cause)) == RequestsFor(log, cause)
  }

  /** The next request for a cause would be made now: none is outstanding, and none was within 30 s. */
  predicate Free(log: seq<LogEntry>, cause: Cause, now: Time) {
    && Outstanding(log) == 0
    && (cause.Participant? && LastParticipantRequest(log).Some? ==>
          now - LastParticipantRequest(log).value >= RECOVERY_COOLDOWN)
  }

  lemma RequestsGrowBy(log: seq<LogEntry>, e: LogEntry, cause: Cause)
    ensures RequestsFor(log + [e], cause) ==
            if e.Decoded? && (cause.Driver? || cause == Participant(e.user)) then 0
            else if e.Left? && cause == Participant(e.user) then 0
            else RequestsFor(log, cause) + if e.Request? && e.cause == cause then 1 else 0
  {
    assert (log + [e])[..|log|] == log;
  }

  /** An entry that is no request, and the attempts it resets. */
  lemma EntryExact(c: Control, c': Control, log: seq<LogEntry>, e: LogEntry)
    requires ControlExact(c, log) && !e.Request? && (e.Finished? ==> c.inProgress)
    requires c'.cooldownUntil == c.cooldownUntil && c'.inProgress == (c.inProgress && !e.Finished?)
    requires forall cause: Cause :: AttemptsOf(c', cause) ==
               if (e.Decoded? && (cause.Driver? || cause == Participant(e.user))) || (e.Left? && cause == Participant(e.user))
               then 0 else AttemptsOf(c, cause)
    ensures ControlExact(c', log + [e])
  {
    LogGrows(log, e, 0);
    forall cause: Cause ensures Capped(AttemptsOf(c', cause)) == RequestsFor(log + [e], cause) {
      RequestsGrowBy(log, e, cause);
    }
  }

  lemma CountsOne(c: Control, cause: Cause, other: Cause)
    ensures AttemptsOf(CountAttempt(c, cause), other) ==
            if other == cause then Next(AttemptsOf(c, cause)) else AttemptsOf(c, other)
  {
  }

  /** A request that can be handed out: made exactly if it is free and one of the first three. */
  lemma RequestExactly(s: State, cause: Cause)
    requires ControlExact(s.control, s.log)
    ensures var (s', outcome) := RequestRecovery(s, cause, true);
            && ControlExact(s'.control, s'.log) && s' == s.(control := s'.control, log := s'.log)
            && outcome == (if !Free(s.log, cause, s.now) then AlreadyRecovering
                           else if RequestsFor(s.log, cause) < MAX_RECOVERY_ATTEMPTS then Queued else Exhausted)
            && s'.log == s.log +
                 if outcome == Queued then [Request(cause, RequestsFor(s.log, cause) + 1, s.now)] else []
  {
    var (s', outcome) := RequestRecovery(s, cause, true);
    assert Capped(AttemptsOf(s.control, cause)) == RequestsFor(s.log, cause);
    CountsOne(s.control, cause, cause);
    if Free(s.log, cause, s.now) {
      if RequestsFor(s.log, cause) < MAX_RECOVERY_ATTEMPTS {
        RequestedExact(s, cause);
      } else {
        ExhaustedExact(s, cause);
      }
    } else {
      assert s.log + [] == s.log;
    }
  }

  lemma RequestedExact(s: State, cause: Cause)
    requires ControlExact(s.control, s.log) && Free(s.log, cause, s.now)
    requires Capped(AttemptsOf(s.control, cause)) == RequestsFor(s.log, cause) < MAX_RECOVERY_ATTEMPTS
    ensures var s' := RequestRecovery(s, cause, true).0; ControlExact(s'.control, s'.log)
  {
    RequestTaken(s, cause);
    RequestEntryExact(s.control, s.log, cause, s.now, RequestRecovery(s, cause, true).0.control);
  }

  /** A free request counts its attempt, and is handed out as the next one of its cause. */
  lemma RequestTaken(s: State, cause: Cause)
    requires ControlExact(s.control, s.log) && Free(s.log, cause, s.now)
    requires Capped(AttemptsOf(s.control, cause)) == RequestsFor(s.log, cause) < MAX_RECOVERY_ATTEMPTS
    ensures var s', counted := RequestRecovery(s, cause, true).0, CountAttempt(s.control, cause);
            && s'.log == s.log + [Request(cause, RequestsFor(s.log, cause) + 1, s.now)]
            && s'.control == counted.(inProgress := true, cooldownUntil :=
                 if cause.Participant? then Some(s.now + RECOVERY_COOLDOWN) else s.control.cooldownUntil)
  {
    CountsOne(s.control, cause, cause);
  }

  /** The next request of a cause, and the control with its attempt counted. */
  lemma RequestEntryExact(c: Control, log: seq<LogEntry>, cause: Cause, now: Time, c': Control)
    requires ControlExact(c, log) && Free(log, cause, now) && RequestsFor(log, cause) < MAX_RECOVERY_ATTEMPTS
    requires c' == CountAttempt(c, cause).(inProgress := true, cooldownUntil :=
               if cause.Participant? then Some(now + RECOVERY_COOLDOWN) else c.cooldownUntil)
    ensures ControlExact(c', log + [Request(cause, RequestsFor(log, cause) + 1, now)])
  {
    var e := Request(cause, RequestsFor(log, cause) + 1, now);
    LogGrows(log, e, 0);
    assert Capped(AttemptsOf(c, cause)) == RequestsFor(log, cause);
    forall other: Cause ensures Capped(AttemptsOf(c', other)) == RequestsFor(log + [e], other) {
      RequestsGrowBy(log, e, other);
      CountsOne(c, cause, other);
      assert AttemptsOf(c', other) == AttemptsOf(CountAttempt(c, cause), other);
      assert Capped(AttemptsOf(c, other)) == RequestsFor(log, other);
    }
  }

  lemma ExhaustedExact(s: State, cause: Cause)
    requires ControlExact(s.control, s.log) && Free(s.log, cause, s.now)
    requires Capped(AttemptsOf(s.control, cause)) == MAX_RECOVERY_ATTEMPTS
    ensures var s' := RequestRecovery(s, cause, true).0; ControlExact(s'.control, s'.log) && s'.log == s.log
  {
    var s' := RequestRecovery(s, cause, true).0;
    CountsOne(s.control, cause, cause);
    forall other: Cause ensures Capped(AttemptsOf(s'.control, other)) == RequestsFor(s'.log, other) {
      CountsOne(s.control, cause, other);
      assert Capped(AttemptsOf(s.control, other)) == RequestsFor(s.log, other);
    }
  }

  // ---- Who is waited for is what the log says ----

  /** The watchdogs that woke up. */
  ghost function Woken(me: UserId, steps: seq<Step>): set<Timer> {
    if steps == [] then {}
    else
      var front, last := steps[..|steps| - 1], steps[|steps| - 1];
      if last.Wake? && Enabled(Run(me, front), last) then Woken(me, front) + {last.timer} else Woken(me, front)
  }

  /** The announcement of the watchdog is its user's last, and nothing came after it. */
  predicate Unanswered(log: seq<LogEntry>, t: Timer) {
    Waiting(log, t.user) == Some(Announced(t.user, t.generation, t.armedAt))
  }

  predicate Armed(s: State, t: Timer) {
    t.user in s.pending && s.pending[t.user] == t.generation
  }

  /** A watchdog is armed exactly while its announcement is unanswered and it has not woken up. */
  predicate PendingExact(s: State, woken: set<Timer>) {
    && (forall t | t in woken :: t in s.timers)
    && forall t | t in s.timers :: Armed(s, t) <==> Unanswered(s.log, t) && t !in woken
  }

  /** An entry that ends the waiting of exactly those who are disarmed. */
  lemma EntryDisarms(s: State, s': State, e: LogEntry, woken: set<Timer>)
    requires PendingExact(s, woken) && s'.timers == s.timers && s'.log == s.log + [e] && !e.Announced?
    requires forall u :: u in s'.pending <==>
               u in s.pending && !e.DriverLost? && !(e.Decoded? && e.user == u) && !(e.Left? && e.user == u)
    requires forall u | u in s'.pending :: s'.pending[u] == s.pending[u]
    ensures PendingExact(s', woken)
  {
    forall t | t in s'.timers ensures Armed(s', t) <==> Unanswered(s'.log, t) && t !in woken {
      LogGrows(s.log, e, t.user);
    }
  }

  lemma AnnouncementArmsExactly(s: State, ssrc: nat, user: UserId, woken: set<Timer>)
    requires PendingExact(s, woken) && TimersOk(s) && user != s.me
    ensures PendingExact(OnSpeaking(s, ssrc, Some(user), true), woken)
  {
    var s' := OnSpeaking(s, ssrc, Some(user), true);
    forall t | t in s'.timers ensures Armed(s', t) <==> Unanswered(s'.log, t) && t !in woken {
      LogGrows(s.log, Announced(user, s.nextGeneration + 1, s.now), t.user);
    }
  }

  lemma {:induction false} HearAllAnswers(s: State, packets: seq<Packet>, woken: set<Timer>)
    requires PendingExact(s, woken) && ControlExact(s.control, s.log)
    ensures var s' := HearAll(s, packets); PendingExact(s', woken) && ControlExact(s'.control, s'.log)
    decreases |packets|
  {
    if packets != [] {
      var before := HearAll(s, packets[..|packets| - 1]);
      HearAllAnswers(s, packets[..|packets| - 1], woken);
      var heard := HeardIn(before, packets[|packets| - 1]);
      if heard.Some? {
        var s' := Hear(before, packets[|packets| - 1]);
        EntryDisarms(before, s', Decoded(heard.value), woken);
        EntryExact(before.control, s'.control, before.log, Decoded(heard.value));
      }
    }
  }

  /** What a request does to the log leaves the waiting alone. */
  lemma RequestKeepsWaiting(s: State, s': State, woken: set<Timer>)
    requires PendingExact(s, woken) && s'.pending == s.pending && s'.timers == s.timers
    requires s'.log == s.log || exists e: LogEntry | e.Request? :: s'.log == s.log + [e]
    ensures PendingExact(s', woken)
  {
    forall t | t in s'.timers ensures Armed(s', t) <==> Unanswered(s'.log, t) && t !in woken {
      if e: LogEntry :| e.Request? && s'.log == s.log + [e] {
        LogGrows(s.log, e, t.user);
      }
    }
  }

  lemma WakingDisarms(s: State, t: Timer, woken: set<Timer>)
    requires PendingExact(s, woken) && t in s.timers
    ensures PendingExact(if Armed(s, t) then s.(pending := s.pending - {t.user}) else s, woken + {t})
  {
  }

  // ---- One step ----

  predicate OpenStep(step: Step) {
    (step.Wake? ==> step.open) && (step.DriverDown? ==> step.reachable)
  }

  ghost predicate AnswersOk(s: State, woken: set<Timer>) {
    ControlExact(s.control, s.log) && PendingExact(s, woken)
  }

  lemma WakeAnswers(s: State, t: Timer, woken: set<Timer>)
    requires AnswersOk(s, woken) && t in s.timers
    ensures AnswersOk(OnTimer(s, t, true), woken + {t})
  {
    WakingDisarms(s, t, woken);
    if Armed(s, t) {
      var disarmed := s.(pending := s.pending - {t.user});
      RequestExactly(disarmed, Participant(t.user));
      RequestKeepsWaiting(disarmed, OnTimer(s, t, true), woken + {t});
    }
  }

  lemma DriverAnswers(s: State, requested: bool, silenced: seq<UserId>, woken: set<Timer>)
    requires AnswersOk(s, woken)
    ensures AnswersOk(OnDriverDisconnect(s, requested, silenced, true), woken)
  {
    var cleared := Cleared(s, silenced);
    EntryDisarms(s, cleared, DriverLost, woken);
    EntryExact(s.control, cleared.control, s.log, DriverLost);
    RequestExactly(cleared, Driver);
    RequestKeepsWaiting(cleared, OnDriverDisconnect(s, requested, silenced, true), woken);
  }

  lemma StepAnswers(s: State, step: Step, woken: set<Timer>)
    requires AnswersOk(s, woken) && RecoveryOk(s) && Enabled(s, step) && OpenStep(step)
    ensures AnswersOk(Apply(s, step), if step.Wake? then woken + {step.timer} else woken)
  {
    match step
    case Advance(to) =>
    case Speaking(ssrc, user, microphone) => SpeakingAnswers(s, ssrc, user, microphone, woken);
    case Wake(t, open) => WakeAnswers(s, t, woken);
    case Receive(packets, started, stopped) => HearAllAnswers(s, packets, woken);
    case Departure(user) => DepartureAnswers(s, user, woken);
    case DriverDown(requested, silenced, reachable) => DriverAnswers(s, requested, silenced, woken);
    case FinishRequest => FinishAnswers(s, woken);
  }

  lemma SpeakingAnswers(s: State, ssrc: nat, user: Option<UserId>, microphone: bool, woken: set<Timer>)
    requires AnswersOk(s, woken) && TimersOk(s)
    ensures AnswersOk(OnSpeaking(s, ssrc, user, microphone), woken)
  {
    if user.Some? && user.value != s.me && microphone {
      AnnouncementArmsExactly(s, ssrc, user.value, woken);
      EntryExact(s.control, s.control, s.log, Announced(user.value, s.nextGeneration + 1, s.now));
    }
  }

  lemma FinishAnswers(s: State, woken: set<Timer>)
    requires AnswersOk(s, woken) && Outstanding(s.log) > 0
    ensures AnswersOk(Finish(s), woken)
  {
    EntryDisarms(s, Finish(s), Finished, woken);
    EntryExact(s.control, Finish(s).control, s.log, Finished);
  }

  lemma DepartureAnswers(s: State, user: UserId, woken: set<Timer>)
    requires AnswersOk(s, woken)
    ensures AnswersOk(OnDisconnect(s, user), woken)
  {
    EntryDisarms(s, OnDisconnect(s, user), Left(user), woken);
    EntryExact(s.control, OnDisconnect(s, user).control, s.log, Left(user));
  }

  lemma {:induction false} RunAnswers(me: UserId, steps: seq<Step>)
    requires Reachable(steps)
    ensures AnswersOk(Run(me, steps), Woken(me, steps))
    decreases |steps|
  {
    if steps != [] {
      var front, last := steps[..|steps| - 1], steps[|steps| - 1];
      assert steps == front + [last];
      RunAnswers(me, front);
      RunOk(me, front);
      if Enabled(Run(me, front), last) {
        StepAnswers(Run(me, front), last, Woken(me, front));
      }
    }
  }

  // ---- Main results ----

  /** What is to be done about silence now: nothing, a request, or to give up. */
  datatype Answer = Nothing | Ask(attempt: nat) | GiveUp

  function AnswerTo(log: seq<LogEntry>, cause: Cause, now: Time): Answer {
    if !Free(log, cause, now) then Nothing
    else if RequestsFor(log, cause) < MAX_RECOVERY_ATTEMPTS then Ask(RequestsFor(log, cause) + 1) else GiveUp
  }

  function Asked(answer: Answer, cause: Cause, now: Time): seq<LogEntry> {
    if answer.Ask? then [Request(cause, answer.attempt, now)] else []
  }

  /**
   Over every run in which requests are taken, a watchdog that wakes up for the first time
   while its announcement is unanswered asks, gives up with a warning, or does nothing, as
   the log says; and otherwise it does nothing.
   */
  lemma SilenceIsAnsweredExactly(me: UserId, steps: seq<Step>, t: Timer)
    requires Reachable(steps) && Enabled(Run(me, steps), Wake(t, true))
    ensures var s, s' := Run(me, steps), Run(me, steps + [Wake(t, true)]);
            var answer := if Unanswered(s.log, t) && t !in Woken(me, steps)
                          then AnswerTo(s.log, Participant(t.user), s.now) else Nothing;
            && s'.log == s.log + Asked(answer, Participant(t.user), s.now)
            && s'.events == s.events + if answer.GiveUp? then [Warning] else []
  {
    assert (steps + [Wake(t, true)])[..|steps|] == steps;
    RunAnswers(me, steps);
    WakeIsAnswered(Run(me, steps), t, Woken(me, steps));
  }

  lemma WakeIsAnswered(s: State, t: Timer, woken: set<Timer>)
    requires AnswersOk(s, woken) && t in s.timers
    ensures var s' := OnTimer(s, t, true);
            var answer := if Unanswered(s.log, t) && t !in woken
                          then AnswerTo(s.log, Participant(t.user), s.now) else Nothing;
            && s'.log == s.log + Asked(answer, Participant(t.user), s.now)
            && s'.events == s.events + if answer.GiveUp? then [Warning] else []
  {
    assert s.log + [] == s.log && s.events + [] == s.events;
    if Armed(s, t) {
      RequestExactly(s.(pending := s.pending - {t.user}), Participant(t.user));
    }
  }

  /** A lost driver ends every turn, and unless it was asked to leave, Kuali asks to come back or leaves with a warning. */
  lemma DriverLossIsAnsweredExactly(me: UserId, steps: seq<Step>, requested: bool, silenced: seq<UserId>)
    requires Reachable(steps) && Enabled(Run(me, steps), DriverDown(requested, silenced, true))
    ensures var s, s' := Run(me, steps), Run(me, steps + [DriverDown(requested, silenced, true)]);
            var answer := if requested then Nothing else AnswerTo(s.log + [DriverLost], Driver, s.now);
            && s'.log == s.log + [DriverLost] + Asked(answer, Driver, s.now)
            && Lists(silenced, s.speaking)
            && s'.events == s.events + Changes(silenced, false) +
                 if requested then [Disconnected] else if answer.GiveUp? then [Warning, Disconnected] else []
  {
    assert (steps + [DriverDown(requested, silenced, true)])[..|steps|] == steps;
    RunAnswers(me, steps);
    LossIsAnswered(Run(me, steps), requested, silenced);
  }

  lemma LossIsAnswered(s: State, requested: bool, silenced: seq<UserId>)
    requires ControlExact(s.control, s.log)
    ensures var s' := OnDriverDisconnect(s, requested, silenced, true);
            var answer := if requested then Nothing else AnswerTo(s.log + [DriverLost], Driver, s.now);
            && s'.log == s.log + [DriverLost] + Asked(answer, Driver, s.now)
            && s'.events == s.events + Changes(silenced, false) +
                 if requested then [Disconnected] else if answer.GiveUp? then [Warning, Disconnected] else []
  {
    EntryExact(s.control, Cleared(s, silenced).control, s.log, DriverLost);
    ClearedIsAnswered(Cleared(s, silenced), requested);
  }

  lemma ClearedIsAnswered(cleared: State, requested: bool)
    requires ControlExact(cleared.control, cleared.log)
    ensures var s' := AfterClearing(cleared, requested, true);
            var answer := if requested then Nothing else AnswerTo(cleared.log, Driver, cleared.now);
            && s'.log == cleared.log + Asked(answer, Driver, cleared.now)
            && s'.events == cleared.events +
                 if requested then [Disconnected] else if answer.GiveUp? then [Warning, Disconnected] else []
  {
    RequestExactly(cleared, Driver);
    assert cleared.log + [] == cleared.log && cleared.events + [] == cleared.events;
    assert cleared.events + [Warning, Disconnected] == cleared.events + [Warning] + [Disconnected];
  }

  /** Who leaves falls silent, and is announced to have left. */
  lemma DepartureIsSent(me: UserId, steps: seq<Step>, user: UserId)
    ensures var s, s' := Run(me, steps), Run(me, steps + [Departure(user)]);
            s'.events == s.events + (if user in s.speaking then [SpeakingChanged(user, false)] else []) + [ParticipantLeft(user)]
  {
    assert (steps + [Departure(user)])[..|steps|] == steps;
    assert Run(me, steps).events + [] == Run(me, steps).events;
  }
}
