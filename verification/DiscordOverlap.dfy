/**
 Recovery requests of `crates/kuali-discord/src/receiver.rs` that overlap: each atomic
 operation of a request is a move of its own, in any order with those of other requests and
 with the handlers. `moments` and `expiry` are history that no move reads.
 */
module DiscordOverlap {
  import opened Wrappers
  import opened DiscordReceiver

  type CallId = nat

  /** How far a call has come: what it has done last. */
  datatype Phase = Begun | Passed | Holding | Counted(attempt: nat) | Cooled(number: nat)

  /** `expiry` is the length of the log when the call began. */
  datatype Call = Call(cause: Cause, phase: Phase, expiry: nat)

  datatype Moment =
    | CooldownRead(id: CallId, at: Time)
    | Committed(id: CallId, at: Time)

  datatype Overlap = Overlap(receiver: State, calls: map<CallId, Call>, begun: nat, moments: seq<Moment>)

  datatype Move =
    | Handle(step: Step)
    | Expire(timer: Timer)
    | LoseDriver(requested: bool, silenced: seq<UserId>)
    | ReadCooldown(id: CallId)
    | Acquire(id: CallId)
    | CountUp(id: CallId)
    | Cool(id: CallId)
    | Submit(id: CallId, open: bool)

  function Start(me: UserId): Overlap {
    Overlap(Initial(me), map[], 0, [])
  }

  // ---- Moves ----

  function Begin(o: Overlap, cause: Cause): Overlap {
    o.(calls := o.calls[o.begun := Call(cause, Begun, |o.receiver.log|)], begun := o.begun + 1)
  }

  function AtPhase(o: Overlap, id: CallId, phase: Phase): Overlap
    requires id in o.calls
  {
    o.(calls := o.calls[id := o.calls[id].(phase := phase)])
  }

  function Done(o: Overlap, id: CallId): Overlap {
    o.(calls := o.calls - {id})
  }

  predicate Cooling(s: State) {
    s.control.cooldownUntil.Some? && s.now < s.control.cooldownUntil.value
  }

  function Read(o: Overlap, id: CallId): Overlap
    requires id in o.calls
  {
    if o.calls[id].cause.Driver? then AtPhase(o, id, Passed)
    else if Cooling(o.receiver) then Done(o, id)
    else AtPhase(o, id, Passed).(moments := o.moments + [CooldownRead(id, o.receiver.now)])
  }

  function WithControl(o: Overlap, c: Control): Overlap {
    o.(receiver := o.receiver.(control := c))
  }

  function TryAcquire(o: Overlap, id: CallId): Overlap
    requires id in o.calls
  {
    if o.receiver.control.inProgress then Done(o, id)
    else AtPhase(WithControl(o, o.receiver.control.(inProgress := true)), id, Holding)
  }

  function Counting(o: Overlap, id: CallId): Overlap
    requires id in o.calls
  {
    var counted := CountAttempt(o.receiver.control, o.calls[id].cause);
    AtPhase(WithControl(o, counted), id, Counted(AttemptsOf(counted, o.calls[id].cause)))
  }

  /** What the caller does when its request failed. */
  function Warned(s: State, cause: Cause): State {
    if cause.Driver? then Send(Send(s, Warning), Disconnected) else Send(s, Warning)
  }

  function GiveUp(o: Overlap, id: CallId): Overlap
    requires id in o.calls
  {
    var freed := WithControl(o, o.receiver.control.(inProgress := false));
    Done(freed.(receiver := Warned(freed.receiver, o.calls[id].cause)), id)
  }

  function Commitment(o: Overlap, id: CallId): Overlap
    requires id in o.calls && o.calls[id].phase.Counted?
  {
    var attempt := o.calls[id].phase.attempt;
    if attempt > MAX_RECOVERY_ATTEMPTS then GiveUp(o, id)
    else if o.calls[id].cause.Driver? then AtPhase(o, id, Cooled(attempt))
    else
      AtPhase(WithControl(o, o.receiver.control.(cooldownUntil := Some(o.receiver.now + RECOVERY_COOLDOWN))), id,
              Cooled(attempt)).(moments := o.moments + [Committed(id, o.receiver.now)])
  }

  function Submission(o: Overlap, id: CallId, open: bool): Overlap
    requires id in o.calls && o.calls[id].phase.Cooled?
  {
    if !open then GiveUp(o, id)
    else Done(o.(receiver := Log(o.receiver, Request(o.calls[id].cause, o.calls[id].phase.number, o.receiver.now))), id)
  }

  predicate AtWork(o: Overlap, id: CallId, phase: Phase) {
    id in o.calls && o.calls[id].phase == phase
  }

  /** A request is part of no handler here, and a set is listed completely. */
  ghost predicate Ready(o: Overlap, move: Move) {
    match move
    case Handle(step) => Enabled(o.receiver, step) && !step.Wake? && !step.DriverDown?
    case Expire(timer) => timer in o.receiver.timers && o.receiver.now - timer.armedAt >= AUDIO_DECODE_TIMEOUT
    case LoseDriver(_, silenced) => Lists(silenced, o.receiver.speaking)
    case ReadCooldown(id) => AtWork(o, id, Begun)
    case Acquire(id) => AtWork(o, id, Passed)
    case CountUp(id) => AtWork(o, id, Holding)
    case Cool(id) => id in o.calls && o.calls[id].phase.Counted?
    case Submit(id, _) => id in o.calls && o.calls[id].phase.Cooled?
  }

  ghost function Make(o: Overlap, move: Move): Overlap {
    if !Ready(o, move) then o
    else
      match move
      case Handle(step) => o.(receiver := Apply(o.receiver, step))
      case Expire(t) =>
        if t.user in o.receiver.pending && o.receiver.pending[t.user] == t.generation
        then Begin(o.(receiver := o.receiver.(pending := o.receiver.pending - {t.user})), Participant(t.user)) else o
      case LoseDriver(requested, silenced) =>
        var cleared := o.(receiver := Cleared(o.receiver, silenced));
        if requested then cleared.(receiver := Send(cleared.receiver, Disconnected)) else Begin(cleared, Driver)
      case ReadCooldown(id) => Read(o, id)
      case Acquire(id) => TryAcquire(o, id)
      case CountUp(id) => Counting(o, id)
      case Cool(id) => Commitment(o, id)
      case Submit(id, open) => Submission(o, id, open)
  }

  ghost function Moves(o: Overlap, moves: seq<Move>): Overlap
    decreases |moves|
  {
    if moves == [] then o else Make(Moves(o, moves[..|moves| - 1]), moves[|moves| - 1])
  }

  // ---- Invariants ----

  predicate Holds(c: Call) {
    c.phase.Holding? || c.phase.Counted? || c.phase.Cooled?
  }

  /** The flag is set exactly while one call holds it or one request is outstanding. */
  ghost predicate FlagOk(o: Overlap) {
    var flag, outstanding := o.receiver.control.inProgress, Outstanding(o.receiver.log);
    && 0 <= outstanding <= 1
    && (outstanding == 1 ==> flag && forall id | id in o.calls :: !Holds(o.calls[id]))
    && (outstanding == 0 && flag ==> exists id :: id in o.calls && Holds(o.calls[id]))
    && (!flag ==> forall id | id in o.calls :: !Holds(o.calls[id]))
    && (forall x, y | x in o.calls && y in o.calls && Holds(o.calls[x]) && Holds(o.calls[y]) :: x == y)
  }

  /** `log[j]` announced the user at least 6 s before `now`, and nothing of the user came until `expiry`. */
  predicate Expired(log: seq<LogEntry>, expiry: nat, user: UserId, now: Time) {
    expiry <= |log| && exists j | 0 <= j < expiry && SilentSince(log[..expiry], user, j) ::
      now - log[j].at >= AUDIO_DECODE_TIMEOUT
  }

  predicate CallOk(o: Overlap, id: CallId)
    requires id in o.calls
  {
    var c := o.calls[id];
    && id < o.begun
    && (c.phase.Cooled? ==> c.phase.number <= MAX_RECOVERY_ATTEMPTS)
    && (c.cause.Participant? ==> Expired(o.receiver.log, c.expiry, c.cause.user, o.receiver.now))
    && (c.cause.Participant? && !c.phase.Begun? ==> exists r :: 0 <= r < |o.moments| && ReadAt(o.moments, r, id))
  }

  predicate ReadAt(ms: seq<Moment>, r: int, id: CallId) {
    0 <= r < |ms| && ms[r].CooldownRead? && ms[r].id == id
  }

  predicate InOrder(ms: seq<Moment>, now: Time) {
    forall i, j | 0 <= i <= j < |ms| :: ms[i].at <= ms[j].at <= now
  }

  /** A read that lets its call pass comes 30 s after every commit before it. */
  predicate ReadsSpaced(ms: seq<Moment>) {
    forall i, r | 0 <= i < r < |ms| && ms[i].Committed? && ms[r].CooldownRead? :: ms[r].at - ms[i].at >= RECOVERY_COOLDOWN
  }

  /** A commit comes after a read of its own call. */
  predicate CommitsRead(ms: seq<Moment>) {
    forall j | 0 <= j < |ms| && ms[j].Committed? :: exists r | 0 <= r < j :: ReadAt(ms, r, ms[j].id)
  }

  function LastCommit(ms: seq<Moment>): Option<Time> {
    if ms == [] then None
    else if ms[|ms| - 1].Committed? then Some(ms[|ms| - 1].at) else LastCommit(ms[..|ms| - 1])
  }

  function CooldownOf(committed: Option<Time>): Option<Time> {
    if committed.Some? then Some(committed.value + RECOVERY_COOLDOWN) else None
  }

  /** The cooldown is that of the last commit. */
  predicate CooldownIs(c: Control, ms: seq<Moment>) {
    c.cooldownUntil == CooldownOf(LastCommit(ms))
  }

  predicate MomentsOk(o: Overlap) {
    && InOrder(o.moments, o.receiver.now) && ReadsSpaced(o.moments) && CommitsRead(o.moments)
    && CooldownIs(o.receiver.control, o.moments)
  }

  /** Every request so far answers a watchdog that expired before it, and has one of the first three numbers. */
  predicate Answers(log: seq<LogEntry>, i: nat)
    requires i < |log|
  {
    log[i].Request? ==>
      && log[i].attempt <= MAX_RECOVERY_ATTEMPTS
      && (log[i].cause.Participant? ==> exists e | 0 <= e <= i :: Expired(log[..i], e, log[i].cause.user, log[i].at))
  }

  predicate AllAnswer(log: seq<LogEntry>) {
    forall i | 0 <= i < |log| :: Answers(log, i)
  }

  ghost predicate OverlapOk(o: Overlap) {
    && FlagOk(o) && MomentsOk(o) && AllAnswer(o.receiver.log)
    && WatchdogOk(o.receiver) && StreamOk(o.receiver)
    && forall id | id in o.calls :: CallOk(o, id)
  }

  // ---- Growth of the log ----

  lemma ExpiredGrows(log: seq<LogEntry>, log': seq<LogEntry>, expiry: nat, user: UserId, now: Time, later: Time)
    requires Expired(log, expiry, user, now) && log <= log' && now <= later
    ensures Expired(log', expiry, user, later)
  {
    assert log'[..expiry] == log[..expiry];
    var j :| 0 <= j < expiry && SilentSince(log[..expiry], user, j) && now - log[j].at >= AUDIO_DECODE_TIMEOUT;
    assert log'[j] == log[j];
  }

  /** Entries behind the log that are no requests. */
  predicate NoneRequested(log: seq<LogEntry>, log': seq<LogEntry>) {
    log <= log' && forall i | |log| <= i < |log'| :: !log'[i].Request?
  }

  lemma AnswersGrow(log: seq<LogEntry>, log': seq<LogEntry>)
    requires AllAnswer(log) && NoneRequested(log, log')
    ensures AllAnswer(log')
  {
    forall i | 0 <= i < |log'| ensures Answers(log', i) {
      if i < |log| {
        assert log'[..i] == log[..i] && Answers(log, i);
      }
    }
  }

  // ---- Handlers ----

  /** What a handler may do as far as requests are concerned. */
  ghost predicate Bystander(s: State, s': State) {
    && NoneRequested(s.log, s'.log) && s.now <= s'.now
    && s'.control.cooldownUntil == s.control.cooldownUntil
    && s'.control.inProgress == s.control.inProgress && Outstanding(s'.log) == Outstanding(s.log)
    && WatchdogOk(s') && StreamOk(s')
  }

  lemma HearBystands(s: State, p: Packet)
    requires WatchdogOk(s) && StreamOk(s)
    ensures Bystander(s, Hear(s, p))
  {
    HearStream(s, p);
    if HeardIn(s, p).Some? {
      EntryKeepsWatchdog(s, Hear(s, p), Decoded(HeardIn(s, p).value));
      LogGrows(s.log, Decoded(HeardIn(s, p).value), 0);
    }
  }

  lemma BystandersChain(a: State, b: State, c: State)
    requires Bystander(a, b) && Bystander(b, c)
    ensures Bystander(a, c)
  {
  }

  lemma {:induction false} HearAllBystands(s: State, packets: seq<Packet>)
    requires WatchdogOk(s) && StreamOk(s)
    ensures Bystander(s, HearAll(s, packets))
    decreases |packets|
  {
    if packets != [] {
      var before := HearAll(s, packets[..|packets| - 1]);
      HearAllBystands(s, packets[..|packets| - 1]);
      HearBystands(before, packets[|packets| - 1]);
      BystandersChain(s, before, HearAll(s, packets));
    }
  }

  lemma HandlerBystands(s: State, step: Step)
    requires WatchdogOk(s) && StreamOk(s) && Enabled(s, step)
    requires !step.Wake? && !step.DriverDown? && !step.FinishRequest?
    ensures Bystander(s, Apply(s, step))
  {
    StepStream(s, step);
    match step
    case Advance(to) => SameLogKeepsWatchdog(s, s.(now := to));
    case Speaking(ssrc, user, microphone) => AnnounceBystands(s, ssrc, user, microphone);
    case Receive(packets, started, stopped) =>
      HearAllBystands(s, packets);
      SameLogKeepsWatchdog(HearAll(s, packets), OnTick(s, packets, started, stopped));
    case Departure(user) =>
      EntryKeepsWatchdog(s, OnDisconnect(s, user), Left(user));
      LogGrows(s.log, Left(user), 0);
  }

  lemma AnnounceBystands(s: State, ssrc: nat, user: Option<UserId>, microphone: bool)
    requires WatchdogOk(s) && StreamOk(s)
    ensures Bystander(s, OnSpeaking(s, ssrc, user, microphone))
  {
    StepStream(s, Speaking(ssrc, user, microphone));
    AnnouncementKeepsWatchdog(s, ssrc, user, microphone);
    if user.Some? {
      LogGrows(s.log, Announced(user.value, s.nextGeneration + 1, s.now), 0);
    }
  }

  lemma ClearedBystands(s: State, silenced: seq<UserId>)
    requires WatchdogOk(s) && StreamOk(s) && Lists(silenced, s.speaking)
    ensures Bystander(s, Cleared(s, silenced))
  {
    var cleared := Cleared(s, silenced);
    StopsReplay(s.events, silenced);
    ChangesName(s.events, silenced, false, s.me);
    EntryKeepsWatchdog(s, cleared, DriverLost);
    LogGrows(s.log, DriverLost, 0);
  }

  lemma SendBystands(s: State, e: VoiceEvent)
    requires WatchdogOk(s) && StreamOk(s) && (e.Warning? || e.Disconnected?)
    ensures Bystander(s, Send(s, e))
  {
    QuietEvent(s, e);
    SameLogKeepsWatchdog(s, Send(s, e));
  }

  lemma BystanderOk(o: Overlap, s': State)
    requires OverlapOk(o) && Bystander(o.receiver, s')
    ensures OverlapOk(o.(receiver := s'))
  {
    var o' := o.(receiver := s');
    AnswersGrow(o.receiver.log, s'.log);
    forall id | id in o'.calls ensures CallOk(o', id) {
      assert CallOk(o, id);
      if o.calls[id].cause.Participant? {
        ExpiredGrows(o.receiver.log, s'.log, o.calls[id].expiry, o.calls[id].cause.user, o.receiver.now, s'.now);
      }
    }
  }

  /** A call begins, or loses its place. */
  lemma BeginOk(o: Overlap, cause: Cause)
    requires OverlapOk(o)
    requires cause.Participant? ==> Expired(o.receiver.log, |o.receiver.log|, cause.user, o.receiver.now)
    ensures OverlapOk(Begin(o, cause))
  {
    var o' := Begin(o, cause);
    forall id | id in o'.calls ensures CallOk(o', id) {
      assert id != o.begun ==> CallOk(o, id);
    }
    KeptFlag(o, o', o.begun);
  }

  /** A call that does not hold the flag, before or after, does not touch it. */
  lemma KeptFlag(o: Overlap, o': Overlap, id: CallId)
    requires FlagOk(o) && o'.receiver == o.receiver
    requires forall x | x != id :: x in o'.calls <==> x in o.calls
    requires forall x | x != id && x in o.calls :: o'.calls[x] == o.calls[x]
    requires id in o.calls ==> !Holds(o.calls[id])
    requires id in o'.calls ==> !Holds(o'.calls[id])
    ensures FlagOk(o')
  {
    if x :| x in o.calls && Holds(o.calls[x]) {
      assert x in o'.calls && Holds(o'.calls[x]);
    }
  }

  lemma OthersStay(o: Overlap, o': Overlap, id: CallId)
    requires forall x | x in o.calls :: CallOk(o, x)
    requires o'.receiver.log == o.receiver.log && o'.receiver.now == o.receiver.now
    requires o.moments <= o'.moments && o'.begun == o.begun
    requires forall x | x in o'.calls && x != id :: x in o.calls && o'.calls[x] == o.calls[x]
    ensures forall x | x in o'.calls && x != id :: CallOk(o', x)
  {
    forall x | x in o'.calls && x != id ensures CallOk(o', x) {
      assert CallOk(o, x);
      if r :| 0 <= r < |o.moments| && ReadAt(o.moments, r, x) {
        assert ReadAt(o'.moments, r, x);
      }
    }
  }

  // ---- The moves of a call ----

  lemma {:induction false} CommitsBeforeLast(ms: seq<Moment>, i: nat, now: Time)
    requires i < |ms| && ms[i].Committed? && InOrder(ms, now)
    ensures LastCommit(ms).Some? && ms[i].at <= LastCommit(ms).value
    decreases |ms|
  {
    if !ms[|ms| - 1].Committed? {
      CommitsBeforeLast(ms[..|ms| - 1], i, now);
    }
  }

  lemma ReadsAdded(ms: seq<Moment>, m: Moment, now: Time)
    requires InOrder(ms, now) && ReadsSpaced(ms) && m.at == now
    requires m.CooldownRead? && LastCommit(ms).Some? ==> now >= LastCommit(ms).value + RECOVERY_COOLDOWN
    ensures ReadsSpaced(ms + [m])
  {
    forall i | 0 <= i < |ms| && ms[i].Committed? ensures m.CooldownRead? ==> m.at - ms[i].at >= RECOVERY_COOLDOWN {
      CommitsBeforeLast(ms, i, now);
    }
  }

  lemma CommitsAdded(ms: seq<Moment>, m: Moment)
    requires CommitsRead(ms) && (m.Committed? ==> exists r :: 0 <= r < |ms| && ReadAt(ms, r, m.id))
    ensures CommitsRead(ms + [m])
  {
    var longer := ms + [m];
    forall j | 0 <= j < |longer| && longer[j].Committed? ensures exists r | 0 <= r < j :: ReadAt(longer, r, longer[j].id) {
      var r :| 0 <= r < |ms| && r < j && ReadAt(ms, r, longer[j].id);
      assert ReadAt(longer, r, longer[j].id);
    }
  }

  lemma OrderAdded(ms: seq<Moment>, m: Moment, now: Time)
    requires InOrder(ms, now) && m.at == now
    ensures InOrder(ms + [m], now)
  {
  }

  lemma MomentAdded(ms: seq<Moment>, m: Moment, now: Time)
    requires InOrder(ms, now) && ReadsSpaced(ms) && CommitsRead(ms) && m.at == now
    requires m.CooldownRead? && LastCommit(ms).Some? ==> now >= LastCommit(ms).value + RECOVERY_COOLDOWN
    requires m.Committed? ==> exists r :: 0 <= r < |ms| && ReadAt(ms, r, m.id)
    ensures InOrder(ms + [m], now) && ReadsSpaced(ms + [m]) && CommitsRead(ms + [m])
    ensures LastCommit(ms + [m]) == if m.Committed? then Some(now) else LastCommit(ms)
  {
    OrderAdded(ms, m, now);
    ReadsAdded(ms, m, now);
    CommitsAdded(ms, m);
    assert (ms + [m])[..|ms|] == ms;
  }

  lemma PassMoment(o: Overlap, id: CallId)
    requires MomentsOk(o) && !Cooling(o.receiver)
    ensures MomentsOk(o.(moments := o.moments + [CooldownRead(id, o.receiver.now)]))
  {
    MomentAdded(o.moments, CooldownRead(id, o.receiver.now), o.receiver.now);
  }

  lemma PassOk(o: Overlap, id: CallId)
    requires OverlapOk(o) && AtWork(o, id, Begun) && o.calls[id].cause.Participant? && !Cooling(o.receiver)
    ensures OverlapOk(Read(o, id))
  {
    var o' := Read(o, id);
    assert CallOk(o, id);
    KeptFlag(o, o', id);
    OthersStay(o, o', id);
    PassMoment(o, id);
    assert ReadAt(o'.moments, |o.moments|, id);
  }

  lemma ReadOk(o: Overlap, id: CallId)
    requires OverlapOk(o) && AtWork(o, id, Begun)
    ensures OverlapOk(Read(o, id))
  {
    if o.calls[id].cause.Participant? && !Cooling(o.receiver) {
      PassOk(o, id);
    } else {
      assert CallOk(o, id);
      KeptFlag(o, Read(o, id), id);
      OthersStay(o, Read(o, id), id);
    }
  }

  lemma AcquireOk(o: Overlap, id: CallId)
    requires OverlapOk(o) && AtWork(o, id, Passed)
    ensures OverlapOk(TryAcquire(o, id))
  {
    var o' := TryAcquire(o, id);
    assert CallOk(o, id);
    OthersStay(o, o', id);
    SameLogKeepsWatchdog(o.receiver, o'.receiver);
    if o.receiver.control.inProgress {
      KeptFlag(o, o', id);
    } else {
      assert id in o'.calls && Holds(o'.calls[id]);
    }
  }

  /** The holder of the flag goes on holding it. */
  lemma HolderGoesOn(o: Overlap, o': Overlap, id: CallId)
    requires FlagOk(o) && id in o.calls && Holds(o.calls[id]) && id in o'.calls && Holds(o'.calls[id])
    requires o'.receiver.control.inProgress == o.receiver.control.inProgress && o'.receiver.log == o.receiver.log
    requires forall x | x in o'.calls && x != id :: x in o.calls && o'.calls[x] == o.calls[x]
    ensures FlagOk(o')
  {
  }

  lemma CountOk(o: Overlap, id: CallId)
    requires OverlapOk(o) && AtWork(o, id, Holding)
    ensures OverlapOk(Counting(o, id))
  {
    var o' := Counting(o, id);
    assert CallOk(o, id);
    OthersStay(o, o', id);
    SameLogKeepsWatchdog(o.receiver, o'.receiver);
    HolderGoesOn(o, o', id);
  }

  lemma WarnedBystands(s: State, cause: Cause)
    requires WatchdogOk(s) && StreamOk(s)
    ensures Bystander(s, Warned(s, cause)) && Warned(s, cause).log == s.log && Warned(s, cause).now == s.now
    ensures Warned(s, cause).control == s.control
  {
    SendBystands(s, Warning);
    SendBystands(Send(s, Warning), Disconnected);
  }

  /** Only the holder gives the flag back. */
  lemma GiveUpOk(o: Overlap, id: CallId)
    requires OverlapOk(o) && id in o.calls && Holds(o.calls[id])
    ensures OverlapOk(GiveUp(o, id))
  {
    var freed := o.receiver.(control := o.receiver.control.(inProgress := false));
    SameLogKeepsWatchdog(o.receiver, freed);
    WarnedBystands(freed, o.calls[id].cause);
    OthersStay(o, GiveUp(o, id), id);
    FlagGivenBack(o, GiveUp(o, id), id);
  }

  lemma FlagGivenBack(o: Overlap, o': Overlap, id: CallId)
    requires FlagOk(o) && id in o.calls && Holds(o.calls[id]) && o'.calls == o.calls - {id}
    requires !o'.receiver.control.inProgress && o'.receiver.log == o.receiver.log
    ensures FlagOk(o')
  {
  }

  lemma CommitMoment(o: Overlap, id: CallId)
    requires MomentsOk(o) && id in o.calls && CallOk(o, id) && o.calls[id].phase.Counted?
    requires o.calls[id].phase.attempt <= MAX_RECOVERY_ATTEMPTS
    ensures MomentsOk(Commitment(o, id)) && o.moments <= Commitment(o, id).moments
  {
    if o.calls[id].cause.Participant? {
      var r :| 0 <= r < |o.moments| && ReadAt(o.moments, r, id);
      CommitTimed(o, id, r);
    }
  }

  lemma CommitterOk(o: Overlap, id: CallId)
    requires id in o.calls && CallOk(o, id) && o.calls[id].phase.Counted?
    requires o.calls[id].phase.attempt <= MAX_RECOVERY_ATTEMPTS
    ensures CallOk(Commitment(o, id), id)
  {
    if o.calls[id].cause.Participant? {
      var r :| 0 <= r < |o.moments| && ReadAt(o.moments, r, id);
      assert ReadAt(Commitment(o, id).moments, r, id);
    }
  }

  lemma CommitTimed(o: Overlap, id: CallId, r: nat)
    requires MomentsOk(o) && r < |o.moments| && ReadAt(o.moments, r, id)
    ensures var ms, now := o.moments + [Committed(id, o.receiver.now)], o.receiver.now;
            InOrder(ms, now) && ReadsSpaced(ms) && CommitsRead(ms) && LastCommit(ms) == Some(now)
  {
    MomentAdded(o.moments, Committed(id, o.receiver.now), o.receiver.now);
  }

  lemma CoolOk(o: Overlap, id: CallId)
    requires OverlapOk(o) && id in o.calls && o.calls[id].phase.Counted?
    ensures OverlapOk(Commitment(o, id))
  {
    if o.calls[id].phase.attempt > MAX_RECOVERY_ATTEMPTS {
      GiveUpOk(o, id);
    } else {
      var o' := Commitment(o, id);
      assert CallOk(o, id);
      CommitMoment(o, id);
      CommitterOk(o, id);
      OthersStay(o, o', id);
      SameLogKeepsWatchdog(o.receiver, o'.receiver);
      HolderGoesOn(o, o', id);
    }
  }

  lemma SubmitOk(o: Overlap, id: CallId, open: bool)
    requires OverlapOk(o) && id in o.calls && o.calls[id].phase.Cooled?
    ensures OverlapOk(Submission(o, id, open))
  {
    if !open {
      GiveUpOk(o, id);
    } else {
      var o', s := Submission(o, id, open), o.receiver;
      var e := Request(o.calls[id].cause, o.calls[id].phase.number, s.now);
      assert CallOk(o, id);
      LogGrows(s.log, e, 0);
      EntryKeepsWatchdog(s, o'.receiver, e);
      RequestAnswers(s.log, e, o.calls[id].expiry);
      forall x | x in o'.calls ensures CallOk(o', x) {
        assert CallOk(o, x);
        if o.calls[x].cause.Participant? {
          ExpiredGrows(s.log, o'.receiver.log, o.calls[x].expiry, o.calls[x].cause.user, s.now, s.now);
        }
      }
    }
  }

  lemma RequestAnswers(log: seq<LogEntry>, e: LogEntry, expiry: nat)
    requires AllAnswer(log) && e.Request? && e.attempt <= MAX_RECOVERY_ATTEMPTS
    requires e.cause.Participant? ==> Expired(log, expiry, e.cause.user, e.at)
    ensures AllAnswer(log + [e])
  {
    var longer := log + [e];
    forall i | 0 <= i < |longer| ensures Answers(longer, i) {
      if i < |log| {
        assert longer[..i] == log[..i] && Answers(log, i);
      } else {
        assert longer[..i] == log;
      }
    }
  }

  // ---- Every interleaving ----

  lemma ExpireOk(o: Overlap, t: Timer)
    requires OverlapOk(o) && Ready(o, Expire(t))
    ensures OverlapOk(Make(o, Expire(t)))
  {
    var s := o.receiver;
    if t.user in s.pending && s.pending[t.user] == t.generation {
      TimerMeansSilence(s, t);
      WaitingMeansSilence(s.log, t.user);
      assert s.log[..|s.log|] == s.log;
      var expired := s.(pending := s.pending - {t.user});
      SameLogKeepsWatchdog(s, expired);
      BystanderOk(o, expired);
      BeginOk(o.(receiver := expired), Participant(t.user));
    }
  }

  lemma LoseDriverOk(o: Overlap, requested: bool, silenced: seq<UserId>)
    requires OverlapOk(o) && Lists(silenced, o.receiver.speaking)
    ensures OverlapOk(Make(o, LoseDriver(requested, silenced)))
  {
    var cleared := Cleared(o.receiver, silenced);
    ClearedBystands(o.receiver, silenced);
    BystanderOk(o, cleared);
    if requested {
      SendBystands(cleared, Disconnected);
      BystanderOk(o.(receiver := cleared), Send(cleared, Disconnected));
    } else {
      BeginOk(o.(receiver := cleared), Driver);
    }
  }

  lemma FinishOk(o: Overlap)
    requires OverlapOk(o) && Outstanding(o.receiver.log) > 0
    ensures OverlapOk(o.(receiver := Finish(o.receiver)))
  {
    var s, s' := o.receiver, Finish(o.receiver);
    LogGrows(s.log, Finished, 0);
    EntryKeepsWatchdog(s, s', Finished);
    AnswersGrow(s.log, s'.log);
    forall id | id in o.calls ensures CallOk(o.(receiver := s'), id) {
      assert CallOk(o, id);
      if o.calls[id].cause.Participant? {
        ExpiredGrows(s.log, s'.log, o.calls[id].expiry, o.calls[id].cause.user, s.now, s.now);
      }
    }
  }

  lemma MoveOk(o: Overlap, move: Move)
    requires OverlapOk(o)
    ensures OverlapOk(Make(o, move))
  {
    if Ready(o, move) {
      match move
      case Handle(step) =>
        if step.FinishRequest? {
          FinishOk(o);
        } else {
          HandlerBystands(o.receiver, step);
          BystanderOk(o, Apply(o.receiver, step));
        }
      case Expire(t) => ExpireOk(o, t);
      case LoseDriver(requested, silenced) => LoseDriverOk(o, requested, silenced);
      case ReadCooldown(id) => ReadOk(o, id);
      case Acquire(id) => AcquireOk(o, id);
      case CountUp(id) => CountOk(o, id);
      case Cool(id) => CoolOk(o, id);
      case Submit(id, open) => SubmitOk(o, id, open);
    }
  }

  lemma {:induction false} MovesOk(me: UserId, moves: seq<Move>)
    ensures OverlapOk(Moves(Start(me), moves))
    decreases |moves|
  {
    if moves != [] {
      MovesOk(me, moves[..|moves| - 1]);
      MoveOk(Moves(Start(me), moves[..|moves| - 1]), moves[|moves| - 1]);
    }
  }

  // ---- Main results ----

  /** In every interleaving at most one request is outstanding, and while one is, no other call holds the flag. */
  lemma AtMostOneOutstanding(me: UserId, moves: seq<Move>)
    ensures var o := Moves(Start(me), moves);
            && 0 <= Outstanding(o.receiver.log) <= 1
            && (Outstanding(o.receiver.log) == 1 ==> forall id | id in o.calls :: !Holds(o.calls[id]))
            && (forall x, y | x in o.calls && y in o.calls && Holds(o.calls[x]) && Holds(o.calls[y]) :: x == y)
  {
    MovesOk(me, moves);
  }

  /** In every interleaving a request answers a watchdog that expired 6 s after its announcement, unheard until then. */
  lemma RequestsAnswerExpiry(me: UserId, moves: seq<Move>)
    ensures AllAnswer(Moves(Start(me), moves).receiver.log)
  {
    MovesOk(me, moves);
  }

  /** In every interleaving the events replay to who speaks. */
  lemma EventsStillReplay(me: UserId, moves: seq<Move>)
    ensures StreamOk(Moves(Start(me), moves).receiver)
  {
    MovesOk(me, moves);
  }

  /** A commit whose cooldown read comes after another commit is at least 30 s later than that one. */
  lemma CrowdedReadFirst(me: UserId, moves: seq<Move>, i: nat, j: nat)
    requires i < j < |Moves(Start(me), moves).moments|
    requires Moves(Start(me), moves).moments[i].Committed? && Moves(Start(me), moves).moments[j].Committed?
    ensures var ms := Moves(Start(me), moves).moments;
            forall r | i < r < j && ReadAt(ms, r, ms[j].id) :: ms[j].at - ms[i].at >= RECOVERY_COOLDOWN
    ensures var ms := Moves(Start(me), moves).moments;
            ms[j].at - ms[i].at < RECOVERY_COOLDOWN ==> exists r | 0 <= r < i :: ReadAt(ms, r, ms[j].id)
  {
    MovesOk(me, moves);
    var ms := Moves(Start(me), moves).moments;
    assert forall r | i < r < j && ReadAt(ms, r, ms[j].id) :: ms[r].at <= ms[j].at;
    var r :| 0 <= r < j && ReadAt(ms, r, ms[j].id);
  }

  predicate CommitsSpaced(ms: seq<Moment>) {
    forall i, j | 0 <= i < j < |ms| && ms[i].Committed? && ms[j].Committed? :: ms[j].at - ms[i].at >= RECOVERY_COOLDOWN
  }

  /** A commit keeps the 30 s exactly if the cooldown, read again at the commit, is over. */
  lemma CommitSpacedExactly(me: UserId, moves: seq<Move>, id: CallId)
    requires Ready(Moves(Start(me), moves), Cool(id))
    requires var call := Moves(Start(me), moves).calls[id];
             call.cause.Participant? && call.phase.attempt <= MAX_RECOVERY_ATTEMPTS
    requires CommitsSpaced(Moves(Start(me), moves).moments)
    ensures var o := Moves(Start(me), moves);
            CommitsSpaced(Make(o, Cool(id)).moments) <==> !Cooling(o.receiver)
  {
    MovesOk(me, moves);
    var o := Moves(Start(me), moves);
    var ms, now := o.moments, o.receiver.now;
    var longer := ms + [Committed(id, now)];
    if LastCommit(ms).Some? {
      var k := LastCommitAt(ms);
      assert longer[k] == ms[k] && longer[|ms|] == Committed(id, now);
    }
    forall i | 0 <= i < |ms| && ms[i].Committed? ensures LastCommit(ms).Some? && ms[i].at <= LastCommit(ms).value {
      CommitsBeforeLast(ms, i, now);
    }
  }

  lemma {:induction false} LastCommitAt(ms: seq<Moment>) returns (k: nat)
    requires LastCommit(ms).Some?
    ensures k < |ms| && ms[k].Committed? && ms[k].at == LastCommit(ms).value
    decreases |ms|
  {
    if ms[|ms| - 1].Committed? {
      k := |ms| - 1;
    } else {
      k := LastCommitAt(ms[..|ms| - 1]);
    }
  }

  // ---- A call that nothing interrupts ----

  ghost function Alone(o: Overlap, id: CallId, open: bool): Overlap {
    Make(Make(Make(Make(Make(o, ReadCooldown(id)), Acquire(id)), CountUp(id)), Cool(id)), Submit(id, open))
  }

  /** The call that has taken the flag, counts and commits: the rest of the sequential request. */
  lemma HolderCommits(o: Overlap, id: CallId, open: bool)
    requires AtWork(o, id, Passed) && !o.receiver.control.inProgress
    ensures var (s, outcome) := Commit(o.receiver, o.calls[id].cause, open);
            var counting := Counting(TryAcquire(o, id), id);
            var o' := Make(Commitment(counting, id), Submit(id, open));
            && id !in o'.calls
            && o'.receiver == if outcome == Exhausted || outcome == Unavailable then Warned(s, o.calls[id].cause) else s
  {
  }

  lemma AloneCommits(o: Overlap, id: CallId, open: bool)
    requires AtWork(o, id, Passed)
    ensures var (s, outcome) := Commit(o.receiver, o.calls[id].cause, open);
            var o' := Make(Make(Make(Make(o, Acquire(id)), CountUp(id)), Cool(id)), Submit(id, open));
            && id !in o'.calls
            && o'.receiver == if outcome == Exhausted || outcome == Unavailable then Warned(s, o.calls[id].cause) else s
  {
    if !o.receiver.control.inProgress {
      var held := TryAcquire(o, id);
      assert Make(Make(o, Acquire(id)), CountUp(id)) == Counting(held, id);
      assert Make(Counting(held, id), Cool(id)) == Commitment(Counting(held, id), id);
      HolderCommits(o, id, open);
    }
  }

  /** A call that runs alone is the request of the sequential model, with the warning of its caller. */
  lemma AloneIsRequest(o: Overlap, id: CallId, open: bool)
    requires AtWork(o, id, Begun)
    ensures var (s, outcome) := RequestRecovery(o.receiver, o.calls[id].cause, open);
            var o' := Alone(o, id, open);
            && id !in o'.calls
            && o'.receiver == if outcome == Exhausted || outcome == Unavailable then Warned(s, o.calls[id].cause) else s
  {
    var read := Make(o, ReadCooldown(id));
    if id in read.calls {
      AloneCommits(read, id, open);
    }
  }

  // ---- A run that crowds two requests ----

  lemma MovesOn(o: Overlap, moves: seq<Move>, move: Move)
    ensures Moves(o, moves + [move]) == Make(Moves(o, moves), move)
  {
    assert (moves + [move])[..|moves|] == moves;
  }

  const FIRST := Timer(1, 1, 0)
  const SECOND := Timer(2, 2, 0)

  /** Two users are announced and stay unheard for 6 s; both watchdogs expire. */
  function Unheard(): seq<Move> {
    [Handle(Speaking(10, Some(1), true))] + [Handle(Speaking(20, Some(2), true))] + [Handle(Advance(6000))]
      + [Expire(FIRST)] + [Expire(SECOND)]
  }

  /** Both calls read the cooldown, and the second goes on when the first is finished. */
  function Crowding(): seq<Move> {
    Unheard() + [ReadCooldown(0)] + [ReadCooldown(1)] + [Acquire(0)] + [CountUp(0)] + [Cool(0)] + [Submit(0, true)]
      + [Handle(FinishRequest)] + [Acquire(1)] + [CountUp(1)] + [Cool(1)] + [Submit(1, true)]
  }

  /** The receiver at 6 s, with the watchdogs in `pending` not yet expired. */
  function Unanswered(me: UserId, pending: map<UserId, nat>): State {
    Initial(me).(now := 6000, ssrcs := map[10 := 1, 20 := 2], pending := pending, nextGeneration := 2,
                 timers := [FIRST, SECOND], log := [Announced(1, 1, 0), Announced(2, 2, 0)])
  }

  lemma BothAnnounced(me: UserId, a: Move, b: Move, c: Move)
    requires me != 1 && me != 2
    requires a == Handle(Speaking(10, Some(1), true)) && b == Handle(Speaking(20, Some(2), true)) && c == Handle(Advance(6000))
    ensures Moves(Start(me), [a] + [b] + [c]) == Overlap(Unanswered(me, map[1 := 1, 2 := 2]), map[], 0, [])
  {
    MovesOn(Start(me), [], a);
    MovesOn(Start(me), [a], b);
    MovesOn(Start(me), [a] + [b], c);
    assert [] + [a] == [a];
    assert Moves(Start(me), [a] + [b] + [c]).receiver.log == [Announced(1, 1, 0), Announced(2, 2, 0)];
  }

  /** Two calls of users 1 and 2 that begin. */
  lemma BothExpire(me: UserId, o: Overlap)
    requires o == Overlap(Unanswered(me, map[1 := 1, 2 := 2]), map[], 0, [])
    ensures Make(Make(o, Expire(FIRST)), Expire(SECOND)) ==
            Overlap(Unanswered(me, map[]), map[0 := Call(Participant(1), Begun, 2), 1 := Call(Participant(2), Begun, 2)], 2, [])
  {
    assert o.receiver.pending - {1} == map[2 := 2];
    var one := Make(o, Expire(FIRST));
    assert one == Overlap(Unanswered(me, map[2 := 2]), map[0 := Call(Participant(1), Begun, 2)], 1, []);
    assert one.receiver.pending - {2} == map[];
  }

  /** Both calls passed the cooldown at 6 s. */
  predicate BothPassed(o: Overlap) {
    && o.receiver.now == 6000 && !o.receiver.control.inProgress && o.receiver.control.attempts == map[]
    && o.calls.Keys == {0, 1} && o.calls[0].phase == Passed && o.calls[1].phase == Passed
    && o.calls[0].cause == Participant(1) && o.calls[1].cause == Participant(2)
    && o.moments == [CooldownRead(0, 6000), CooldownRead(1, 6000)] && Outstanding(o.receiver.log) == 0
  }

  lemma BothPass(me: UserId)
    requires me != 1 && me != 2
    ensures BothPassed(Moves(Start(me), Unheard() + [ReadCooldown(0)] + [ReadCooldown(1)]))
  {
    var a, b, c := Handle(Speaking(10, Some(1), true)), Handle(Speaking(20, Some(2), true)), Handle(Advance(6000));
    BothAnnounced(me, a, b, c);
    MovesOn(Start(me), [a] + [b] + [c], Expire(FIRST));
    MovesOn(Start(me), [a] + [b] + [c] + [Expire(FIRST)], Expire(SECOND));
    BothExpire(me, Moves(Start(me), [a] + [b] + [c]));
    MovesOn(Start(me), Unheard(), ReadCooldown(0));
    MovesOn(Start(me), Unheard() + [ReadCooldown(0)], ReadCooldown(1));
    BothRead(me, Moves(Start(me), Unheard()));
  }

  lemma BothRead(me: UserId, o: Overlap)
    requires o == Overlap(Unanswered(me, map[]),
                          map[0 := Call(Participant(1), Begun, 2), 1 := Call(Participant(2), Begun, 2)], 2, [])
    ensures BothPassed(Make(Make(o, ReadCooldown(0)), ReadCooldown(1)))
  {
    NoneOutstanding();
  }

  lemma NoneOutstanding()
    ensures Outstanding([Announced(1, 1, 0), Announced(2, 2, 0)]) == 0
  {
    LogGrows([Announced(1, 1, 0)], Announced(2, 2, 0), 0);
    LogGrows([], Announced(1, 1, 0), 0);
    assert [] + [Announced(1, 1, 0)] + [Announced(2, 2, 0)] == [Announced(1, 1, 0), Announced(2, 2, 0)];
    assert [] + [Announced(1, 1, 0)] == [Announced(1, 1, 0)];
  }

  /** A call that passed, of a user without attempts, takes the free flag, commits and is sent. */
  lemma CommitsNow(o: Overlap, id: CallId)
    requires AtWork(o, id, Passed) && !o.receiver.control.inProgress && o.calls[id].cause.Participant?
    requires o.calls[id].cause.user !in o.receiver.control.attempts
    ensures var o' := Make(Make(Make(Make(o, Acquire(id)), CountUp(id)), Cool(id)), Submit(id, true));
            && o'.moments == o.moments + [Committed(id, o.receiver.now)] && o'.calls == o.calls - {id}
            && o'.receiver.log == o.receiver.log + [Request(o.calls[id].cause, 1, o.receiver.now)]
            && o'.receiver.now == o.receiver.now
            && o'.receiver.control.attempts == o.receiver.control.attempts[o.calls[id].cause.user := 1]
  {
    var held := Make(o, Acquire(id));
    var counted := Make(held, CountUp(id));
    assert counted.calls[id].phase == Counted(1) && counted.calls == o.calls[id := counted.calls[id]];
    var cooled := Make(counted, Cool(id));
    assert cooled.calls[id].phase == Cooled(1) && cooled.calls == o.calls[id := cooled.calls[id]];
    assert Make(cooled, Submit(id, true)).calls == o.calls - {id};
  }

  lemma FiveMoves(o: Overlap, moves: seq<Move>, a: Move, b: Move, c: Move, d: Move, e: Move)
    ensures Moves(o, moves + [a] + [b] + [c] + [d]) == Make(Make(Make(Make(Moves(o, moves), a), b), c), d)
    ensures Moves(o, moves + [a] + [b] + [c] + [d] + [e]) == Make(Moves(o, moves + [a] + [b] + [c] + [d]), e)
  {
    MovesOn(o, moves, a);
    MovesOn(o, moves + [a], b);
    MovesOn(o, moves + [a] + [b], c);
    MovesOn(o, moves + [a] + [b] + [c], d);
    MovesOn(o, moves + [a] + [b] + [c] + [d], e);
  }

  /** From the first announcement on, two requests of one run are committed and sent in the same instant. */
  lemma OverlappingRequestsMayCrowd(me: UserId)
    requires me != 1 && me != 2
    ensures var o := Moves(Start(me), Crowding());
            && o.moments == [CooldownRead(0, 6000), CooldownRead(1, 6000), Committed(0, 6000), Committed(1, 6000)]
            && Request(Participant(1), 1, 6000) in o.receiver.log && Request(Participant(2), 1, 6000) in o.receiver.log
  {
    var passed := Unheard() + [ReadCooldown(0)] + [ReadCooldown(1)];
    var o := Moves(Start(me), passed);
    BothPass(me);
    FiveMoves(Start(me), passed, Acquire(0), CountUp(0), Cool(0), Submit(0, true), Handle(FinishRequest));
    CommitsNow(o, 0);
    var finished := passed + [Acquire(0)] + [CountUp(0)] + [Cool(0)] + [Submit(0, true)] + [Handle(FinishRequest)];
    LogGrows(o.receiver.log, Request(Participant(1), 1, 6000), 0);
    FiveMoves(Start(me), finished, Acquire(1), CountUp(1), Cool(1), Submit(1, true), Acquire(1));
    CommitsNow(Moves(Start(me), finished), 1);
  }
}
