/**
 Discord voice reception of `crates/kuali-discord/src/receiver.rs`: the decode watchdog,
 the capped recovery requests and the stream of speaking events. A handler runs as one
 step; time is a field that only `Advance` moves. `log` is history that nothing reads.
 */
module DiscordReceiver {
  import opened Wrappers

  type UserId = nat
  type Time = int

  const AUDIO_DECODE_TIMEOUT: Time := 6000
  const RECOVERY_COOLDOWN: Time := 30000
  const MAX_RECOVERY_ATTEMPTS: nat := 3

  datatype Cause = Participant(user: UserId) | Driver
  datatype Outcome = Queued | AlreadyRecovering | Exhausted | Unavailable
  datatype Timer = Timer(user: UserId, generation: nat, armedAt: Time)
  datatype Packet = Packet(ssrc: nat, pcm: Option<nat>)

  datatype VoiceEvent =
    | Audio(user: UserId)
    | SpeakingChanged(user: UserId, speaking: bool)
    | Tick
    | ParticipantLeft(user: UserId)
    | Warning
    | Disconnected

  datatype LogEntry =
    | Announced(user: UserId, generation: nat, at: Time)
    | Decoded(user: UserId)
    | Left(user: UserId)
    | DriverLost
    | Request(cause: Cause, attempt: nat, at: Time)
    | Finished

  datatype Control = Control(
    inProgress: bool,
    cooldownUntil: Option<Time>,
    attempts: map<UserId, nat>,
    driverAttempts: nat)

  datatype State = State(
    me: UserId,
    now: Time,
    ssrcs: map<nat, UserId>,
    speaking: set<UserId>,
    pending: map<UserId, nat>,
    nextGeneration: nat,
    timers: seq<Timer>,
    control: Control,
    events: seq<VoiceEvent>,
    log: seq<LogEntry>)

  function Initial(me: UserId): State {
    State(me, 0, map[], {}, map[], 0, [], Control(false, None, map[], 0), [], [])
  }

  // ---- Handlers ----

  function Send(s: State, e: VoiceEvent): State {
    s.(events := s.events + [e])
  }

  function Log(s: State, e: LogEntry): State {
    s.(log := s.log + [e])
  }

  /** Eight-bit saturating increment. */
  function Next(attempt: nat): nat {
    if attempt >= 255 then 255 else attempt + 1
  }

  function AttemptsOf(c: Control, cause: Cause): nat {
    match cause
    case Driver => c.driverAttempts
    case Participant(user) => if user in c.attempts then c.attempts[user] else 0
  }

  function CountAttempt(c: Control, cause: Cause): Control {
    var attempt := Next(AttemptsOf(c, cause));
    match cause
    case Driver => c.(driverAttempts := attempt)
    case Participant(user) => c.(attempts := c.attempts[user := attempt])
  }

  /** A request from the compare-exchange on: the cooldown has been read before. */
  function Commit(s: State, cause: Cause, open: bool): (State, Outcome) {
    if s.control.inProgress then (s, AlreadyRecovering)
    else
      var counted := CountAttempt(s.control, cause);
      var attempt := AttemptsOf(counted, cause);
      if attempt > MAX_RECOVERY_ATTEMPTS then (s.(control := counted), Exhausted)
      else
        var cooled := if cause.Participant? then counted.(cooldownUntil := Some(s.now + RECOVERY_COOLDOWN)) else counted;
        if !open then (s.(control := cooled), Unavailable)
        else (Log(s.(control := cooled.(inProgress := true)), Request(cause, attempt, s.now)), Queued)
  }

  function RequestRecovery(s: State, cause: Cause, open: bool): (State, Outcome) {
    if cause.Participant? && s.control.cooldownUntil.Some? && s.now < s.control.cooldownUntil.value
    then (s, AlreadyRecovering) else Commit(s, cause, open)
  }

  function Finish(s: State): State {
    Log(s.(control := s.control.(inProgress := false)), Finished)
  }

  function OnSpeaking(s: State, ssrc: nat, user: Option<UserId>, microphone: bool): State {
    if user.None? || user.value == s.me then s
    else
      var known := s.(ssrcs := s.ssrcs[ssrc := user.value]);
      if !microphone then known
      else
        var generation := s.nextGeneration + 1;
        Log(known.(
          nextGeneration := generation,
          pending := s.pending[user.value := generation],
          timers := s.timers + [Timer(user.value, generation, s.now)]), Announced(user.value, generation, s.now))
  }

  /** The spawned watchdog of an announcement wakes up. */
  function OnTimer(s: State, t: Timer, open: bool): State {
    if t.user in s.pending && s.pending[t.user] == t.generation then
      var (s', outcome) := RequestRecovery(s.(pending := s.pending - {t.user}), Participant(t.user), open);
      if outcome == Exhausted || outcome == Unavailable then Send(s', Warning) else s'
    else s
  }

  function MarkHealthy(c: Control, user: UserId): Control {
    c.(attempts := c.attempts - {user}, driverAttempts := 0)
  }

  /** The user whose audio a packet carries, if it is known, someone else, and not empty. */
  function HeardIn(s: State, p: Packet): Option<UserId> {
    if p.ssrc !in s.ssrcs || s.ssrcs[p.ssrc] == s.me || p.pcm.None? || p.pcm.value == 0 then None
    else Some(s.ssrcs[p.ssrc])
  }

  function Hear(s: State, p: Packet): State {
    match HeardIn(s, p)
    case None => s
    case Some(user) =>
      Log(Send(s.(pending := s.pending - {user}, control := MarkHealthy(s.control, user)), Audio(user)), Decoded(user))
  }

  function HearAll(s: State, packets: seq<Packet>): State {
    if packets == [] then s else Hear(HearAll(s, packets[..|packets| - 1]), packets[|packets| - 1])
  }

  function ActiveIn(s: State, packets: seq<Packet>): set<UserId> {
    set i | 0 <= i < |packets| && HeardIn(s, packets[i]).Some? :: HeardIn(s, packets[i]).value
  }

  function Changes(users: seq<UserId>, speaking: bool): seq<VoiceEvent> {
    if users == [] then []
    else Changes(users[..|users| - 1], speaking) + [SpeakingChanged(users[|users| - 1], speaking)]
  }

  function Listed(users: seq<UserId>): set<UserId> {
    if users == [] then {} else Listed(users[..|users| - 1]) + {users[|users| - 1]}
  }

  predicate NoRepeats(users: seq<UserId>) {
    users != [] ==> users[|users| - 1] !in Listed(users[..|users| - 1]) && NoRepeats(users[..|users| - 1])
  }

  /** `users` lists a set, each member once; a hash set lists its members in any order. */
  predicate Lists(users: seq<UserId>, s: set<UserId>) {
    NoRepeats(users) && Listed(users) == s
  }

  function OnTick(s: State, packets: seq<Packet>, started: seq<UserId>, stopped: seq<UserId>): State {
    var heard := HearAll(s, packets);
    heard.(speaking := ActiveIn(s, packets),
           events := heard.events + Changes(started, true) + Changes(stopped, false) + [Tick])
  }

  function WithoutUser(ssrcs: map<nat, UserId>, user: UserId): map<nat, UserId> {
    map k | k in ssrcs && ssrcs[k] != user :: ssrcs[k]
  }

  function OnDisconnect(s: State, user: UserId): State {
    var silent := if user in s.speaking
                  then Send(s.(speaking := s.speaking - {user}), SpeakingChanged(user, false)) else s;
    Log(Send(silent.(
      ssrcs := WithoutUser(s.ssrcs, user),
      pending := s.pending - {user},
      control := s.control.(attempts := s.control.attempts - {user})), ParticipantLeft(user)), Left(user))
  }

  /** Everyone falls silent and every stream is forgotten. */
  function Cleared(s: State, stopped: seq<UserId>): State {
    Log(s.(speaking := {}, events := s.events + Changes(stopped, false), ssrcs := map[], pending := map[]), DriverLost)
  }

  function AfterClearing(cleared: State, requested: bool, open: bool): State {
    if requested then Send(cleared, Disconnected)
    else
      var (s', outcome) := RequestRecovery(cleared, Driver, open);
      if outcome == Exhausted || outcome == Unavailable then Send(Send(s', Warning), Disconnected) else s'
  }

  function OnDriverDisconnect(s: State, requested: bool, stopped: seq<UserId>, open: bool): State {
    AfterClearing(Cleared(s, stopped), requested, open)
  }

  // ---- Steps ----

  datatype Step =
    | Advance(to: Time)
    | Speaking(ssrc: nat, announced: Option<UserId>, microphone: bool)
    | Wake(timer: Timer, open: bool)
    | Receive(packets: seq<Packet>, started: seq<UserId>, stopped: seq<UserId>)
    | Departure(leaving: UserId)
    | DriverDown(requested: bool, silenced: seq<UserId>, reachable: bool)
    | FinishRequest

  /** Requests handed out and not yet finished. */
  function Outstanding(log: seq<LogEntry>): int {
    if log == [] then 0
    else
      var before := Outstanding(log[..|log| - 1]);
      match log[|log| - 1]
      case Request(_, _, _) => before + 1
      case Finished => before - 1
      case _ => before
  }

  /** A timer sleeps its full time; a set is listed completely; a request is finished once. */
  ghost predicate Enabled(s: State, step: Step) {
    match step
    case Advance(to) => s.now <= to
    case Wake(timer, _) => timer in s.timers && s.now - timer.armedAt >= AUDIO_DECODE_TIMEOUT
    case Receive(packets, started, stopped) =>
      && Lists(started, ActiveIn(s, packets) - s.speaking)
      && Lists(stopped, s.speaking - ActiveIn(s, packets))
    case DriverDown(_, silenced, _) => Lists(silenced, s.speaking)
    case FinishRequest => Outstanding(s.log) > 0
    case _ => true
  }

  function Apply(s: State, step: Step): State {
    match step
    case Advance(to) => s.(now := to)
    case Speaking(ssrc, user, microphone) => OnSpeaking(s, ssrc, user, microphone)
    case Wake(timer, open) => OnTimer(s, timer, open)
    case Receive(packets, started, stopped) => OnTick(s, packets, started, stopped)
    case Departure(user) => OnDisconnect(s, user)
    case DriverDown(requested, silenced, reachable) => OnDriverDisconnect(s, requested, silenced, reachable)
    case FinishRequest => Finish(s)
  }

  /** A run takes the enabled ones of its steps. */
  ghost function Run(me: UserId, steps: seq<Step>): State
    decreases |steps|
  {
    if steps == [] then Initial(me)
    else
      var s := Run(me, steps[..|steps| - 1]);
      if Enabled(s, steps[|steps| - 1]) then Apply(s, steps[|steps| - 1]) else s
  }

  // ---- Recovery requests: what the log must show ----

  /** The last announcement of a user, unless audio, a departure or a lost driver came after it. */
  function Waiting(log: seq<LogEntry>, user: UserId): (w: Option<LogEntry>)
    ensures w.Some? ==> w.value.Announced? && w.value.user == user
  {
    if log == [] then None
    else
      var last := log[|log| - 1];
      if last.Announced? && last.user == user then Some(last)
      else if (last.Decoded? && last.user == user) || (last.Left? && last.user == user) || last.DriverLost? then None
      else Waiting(log[..|log| - 1], user)
  }

  /** The attempt number of a user's last request since it was last heard or left; 0 if there is none. */
  function LastAttempt(log: seq<LogEntry>, user: UserId): nat {
    if log == [] then 0
    else
      var last := log[|log| - 1];
      if last.Request? && last.cause == Participant(user) then last.attempt
      else if (last.Decoded? && last.user == user) || (last.Left? && last.user == user) then 0
      else LastAttempt(log[..|log| - 1], user)
  }

  function RequestsSinceReset(log: seq<LogEntry>, user: UserId): nat {
    if log == [] then 0
    else
      var last := log[|log| - 1];
      if (last.Decoded? && last.user == user) || (last.Left? && last.user == user) then 0
      else RequestsSinceReset(log[..|log| - 1], user) +
           if last.Request? && last.cause == Participant(user) then 1 else 0
  }

  /** When the last participant request was made, whoever it was for. */
  function LastParticipantRequest(log: seq<LogEntry>): Option<Time> {
    if log == [] then None
    else if log[|log| - 1].Request? && log[|log| - 1].cause.Participant? then Some(log[|log| - 1].at)
    else LastParticipantRequest(log[..|log| - 1])
  }

  /** A participant request comes 6 s after an unanswered announcement, 30 s after the last one, and in turn. */
  predicate RequestOk(before: seq<LogEntry>, e: LogEntry) {
    e.Request? && e.cause.Participant? ==>
      var user := e.cause.user;
      && Waiting(before, user).Some? && e.at - Waiting(before, user).value.at >= AUDIO_DECODE_TIMEOUT
      && LastAttempt(before, user) < e.attempt <= MAX_RECOVERY_ATTEMPTS
      && (LastParticipantRequest(before).Some? ==> e.at - LastParticipantRequest(before).value >= RECOVERY_COOLDOWN)
  }

  predicate RequestsOk(log: seq<LogEntry>) {
    forall i | 0 <= i < |log| :: RequestOk(log[..i], log[i])
  }

  // ---- Invariant ----

  predicate TimersOk(s: State) {
    && (forall t | t in s.timers :: t.generation <= s.nextGeneration)
    && (forall i, t | 0 <= i < |s.log| && t in s.timers && s.log[i].Announced? && s.log[i].generation == t.generation ::
          s.log[i].user == t.user && s.log[i].at == t.armedAt)
    && (forall i | 0 <= i < |s.log| && s.log[i].Announced? :: s.log[i].generation <= s.nextGeneration)
  }

  predicate PendingOk(s: State, user: UserId) {
    user in s.pending ==>
      && s.pending[user] <= s.nextGeneration
      && Waiting(s.log, user).Some? && Waiting(s.log, user).value.Announced?
      && Waiting(s.log, user).value.generation == s.pending[user]
  }

  ghost predicate ControlOk(c: Control, log: seq<LogEntry>) {
    && (forall user :: LastAttempt(log, user) <= AttemptsOf(c, Participant(user)))
    && (LastParticipantRequest(log).Some? ==>
          c.cooldownUntil.Some? && LastParticipantRequest(log).value + RECOVERY_COOLDOWN <= c.cooldownUntil.value)
    && Outstanding(log) == if c.inProgress then 1 else 0
  }

  ghost predicate WatchdogOk(s: State) {
    TimersOk(s) && forall user :: PendingOk(s, user)
  }

  ghost predicate RecoveryOk(s: State) {
    RequestsOk(s.log) && WatchdogOk(s) && ControlOk(s.control, s.log)
  }

  // ---- The log grows ----

  lemma LogGrows(log: seq<LogEntry>, e: LogEntry, user: UserId)
    ensures Waiting(log + [e], user) ==
      if e.Announced? && e.user == user then Some(e)
      else if (e.Decoded? && e.user == user) || (e.Left? && e.user == user) || e.DriverLost? then None
      else Waiting(log, user)
    ensures LastAttempt(log + [e], user) ==
      if e.Request? && e.cause == Participant(user) then e.attempt
      else if (e.Decoded? && e.user == user) || (e.Left? && e.user == user) then 0 else LastAttempt(log, user)
    ensures LastParticipantRequest(log + [e]) ==
      if e.Request? && e.cause.Participant? then Some(e.at) else LastParticipantRequest(log)
    ensures Outstanding(log + [e]) ==
      Outstanding(log) + (if e.Request? then 1 else if e.Finished? then -1 else 0)
  {
    assert (log + [e])[..|log|] == log;
  }

  lemma RequestsGrow(log: seq<LogEntry>, e: LogEntry)
    requires RequestsOk(log) && RequestOk(log, e)
    ensures RequestsOk(log + [e])
  {
    var longer := log + [e];
    forall i | 0 <= i < |longer| ensures RequestOk(longer[..i], longer[i]) {
      assert longer[..i] == if i < |log| then log[..i] else log;
    }
  }

  /** An entry other than an announcement, which ends the waiting for whoever it is about. */
  lemma EntryKeepsWatchdog(s: State, s': State, e: LogEntry)
    requires WatchdogOk(s) && !e.Announced?
    requires s'.log == s.log + [e] && s'.timers == s.timers && s'.nextGeneration == s.nextGeneration
    requires forall u | u in s'.pending :: u in s.pending && s'.pending[u] == s.pending[u]
    requires forall u | u in s'.pending :: !e.DriverLost? && !(e.Decoded? && e.user == u) && !(e.Left? && e.user == u)
    ensures WatchdogOk(s')
  {
    forall u ensures PendingOk(s', u) {
      LogGrows(s.log, e, u);
      assert PendingOk(s, u);
    }
  }

  lemma SameLogKeepsWatchdog(s: State, s': State)
    requires WatchdogOk(s)
    requires s'.log == s.log && s'.timers == s.timers && s'.nextGeneration == s.nextGeneration
    requires forall u | u in s'.pending :: u in s.pending && s'.pending[u] == s.pending[u]
    ensures WatchdogOk(s')
  {
    forall u ensures PendingOk(s', u) {
      assert PendingOk(s, u);
    }
  }

  lemma AnnouncementKeepsWatchdog(s: State, ssrc: nat, user: Option<UserId>, microphone: bool)
    requires WatchdogOk(s)
    ensures WatchdogOk(OnSpeaking(s, ssrc, user, microphone))
  {
    var s' := OnSpeaking(s, ssrc, user, microphone);
    if user.Some? && user.value != s.me && microphone {
      forall u ensures PendingOk(s', u) {
        LogGrows(s.log, Announced(user.value, s.nextGeneration + 1, s.now), u);
        assert PendingOk(s, u);
      }
    } else {
      SameLogKeepsWatchdog(s, s');
    }
  }

  /** An entry that is neither an announcement nor a request. */
  lemma PlainEntryOk(s: State, s': State, e: LogEntry)
    requires RecoveryOk(s) && !e.Announced? && !e.Request?
    requires s'.log == s.log + [e] && s'.timers == s.timers && s'.nextGeneration == s.nextGeneration
    requires forall u | u in s'.pending :: u in s.pending && s'.pending[u] == s.pending[u]
    requires forall u | u in s'.pending :: !e.DriverLost? && !(e.Decoded? && e.user == u) && !(e.Left? && e.user == u)
    requires s'.control.cooldownUntil == s.control.cooldownUntil
    requires s'.control.inProgress == if e.Finished? then false else s.control.inProgress
    requires e.Finished? ==> s.control.inProgress
    requires forall u :: AttemptsOf(s'.control, Participant(u)) == AttemptsOf(s.control, Participant(u))
                         || (AttemptsOf(s'.control, Participant(u)) == 0 && ((e.Decoded? || e.Left?) && e.user == u))
    ensures RecoveryOk(s')
  {
    RequestsGrow(s.log, e);
    EntryKeepsWatchdog(s, s', e);
    forall u ensures LastAttempt(s'.log, u) <= AttemptsOf(s'.control, Participant(u)) {
      LogGrows(s.log, e, u);
      assert LastAttempt(s.log, u) <= AttemptsOf(s.control, Participant(u));
    }
    LogGrows(s.log, e, 0);
  }

  lemma SpeakingOk(s: State, ssrc: nat, user: Option<UserId>, microphone: bool)
    requires RecoveryOk(s)
    ensures RecoveryOk(OnSpeaking(s, ssrc, user, microphone))
  {
    if user.Some? && user.value != s.me && microphone {
      AnnouncedOk(s, ssrc, user.value);
    } else {
      SameLogOk(s, OnSpeaking(s, ssrc, user, microphone));
    }
  }

  lemma AnnouncedOk(s: State, ssrc: nat, user: UserId)
    requires RecoveryOk(s) && user != s.me
    ensures RecoveryOk(OnSpeaking(s, ssrc, Some(user), true))
  {
    var s' := OnSpeaking(s, ssrc, Some(user), true);
    var e := Announced(user, s.nextGeneration + 1, s.now);
    assert s'.log == s.log + [e] && s'.control == s.control;
    RequestsGrow(s.log, e);
    AnnouncementKeepsWatchdog(s, ssrc, Some(user), true);
    QuietControl(s.control, s.log, e);
  }

  /** An announcement changes nothing the control is about. */
  lemma QuietControl(c: Control, log: seq<LogEntry>, e: LogEntry)
    requires ControlOk(c, log) && e.Announced?
    ensures ControlOk(c, log + [e])
  {
    forall u ensures LastAttempt(log + [e], u) <= AttemptsOf(c, Participant(u)) {
      LogGrows(log, e, u);
    }
    LogGrows(log, e, 0);
  }

  lemma SameLogOk(s: State, s': State)
    requires RecoveryOk(s)
    requires s'.log == s.log && s'.timers == s.timers && s'.nextGeneration == s.nextGeneration && s'.control == s.control
    requires forall u | u in s'.pending :: u in s.pending && s'.pending[u] == s.pending[u]
    ensures RecoveryOk(s')
  {
    SameLogKeepsWatchdog(s, s');
  }

  /** Counting an attempt, with or without the cooldown, keeps the control well-formed. */
  lemma CountedOk(c: Control, c': Control, log: seq<LogEntry>, cause: Cause, now: Time)
    requires ControlOk(c, log)
    requires c'.inProgress == c.inProgress
    requires c'.attempts == CountAttempt(c, cause).attempts && c'.driverAttempts == CountAttempt(c, cause).driverAttempts
    requires c'.cooldownUntil == c.cooldownUntil
      || (c'.cooldownUntil == Some(now + RECOVERY_COOLDOWN)
          && (LastParticipantRequest(log).Some? ==> LastParticipantRequest(log).value <= now))
    requires forall u :: LastAttempt(log, u) <= MAX_RECOVERY_ATTEMPTS
    ensures ControlOk(c', log)
  {
    forall u ensures LastAttempt(log, u) <= AttemptsOf(c', Participant(u)) {
      assert LastAttempt(log, u) <= AttemptsOf(c, Participant(u));
    }
  }

  lemma {:induction false} AttemptsAreCapped(log: seq<LogEntry>, user: UserId)
    requires RequestsOk(log)
    ensures LastAttempt(log, user) <= MAX_RECOVERY_ATTEMPTS
    decreases |log|
  {
    if log != [] {
      var front, last := log[..|log| - 1], log[|log| - 1];
      assert RequestOk(log[..|log| - 1], last);
      RequestsOfFront(log);
      AttemptsAreCapped(front, user);
    }
  }

  lemma RequestsOfFront(log: seq<LogEntry>)
    requires RequestsOk(log) && log != []
    ensures RequestsOk(log[..|log| - 1])
  {
    var front := log[..|log| - 1];
    forall i | 0 <= i < |front| ensures RequestOk(front[..i], front[i]) {
      assert front[..i] == log[..i] && RequestOk(log[..i], log[i]);
    }
  }

  /** What a participant request has to bring along: its silence, and the cooldown already over. */
  predicate MayRequest(s: State, cause: Cause) {
    cause.Participant? ==>
      && Waiting(s.log, cause.user).Some? && s.now - Waiting(s.log, cause.user).value.at >= AUDIO_DECODE_TIMEOUT
      && (LastParticipantRequest(s.log).Some? ==> s.now - LastParticipantRequest(s.log).value >= RECOVERY_COOLDOWN)
  }

  /** The control after a request was counted, cooled down and handed out. */
  lemma RequestedControl(c: Control, c': Control, log: seq<LogEntry>, cause: Cause, attempt: nat, now: Time)
    requires ControlOk(c, log) && !c.inProgress
    requires attempt == Next(AttemptsOf(c, cause))
    requires c'.inProgress && c'.attempts == CountAttempt(c, cause).attempts
    requires c'.cooldownUntil == if cause.Participant? then Some(now + RECOVERY_COOLDOWN) else c.cooldownUntil
    ensures ControlOk(c', log + [Request(cause, attempt, now)])
  {
    var e := Request(cause, attempt, now);
    forall u ensures LastAttempt(log + [e], u) <= AttemptsOf(c', Participant(u)) {
      LogGrows(log, e, u);
      assert LastAttempt(log, u) <= AttemptsOf(c, Participant(u));
    }
    LogGrows(log, e, 0);
  }

  lemma RequestedOk(s: State, s': State, cause: Cause, attempt: nat)
    requires RecoveryOk(s) && MayRequest(s, cause) && !s.control.inProgress
    requires attempt == Next(AttemptsOf(s.control, cause)) <= MAX_RECOVERY_ATTEMPTS
    requires s'.log == s.log + [Request(cause, attempt, s.now)]
    requires s'.timers == s.timers && s'.nextGeneration == s.nextGeneration && s'.pending == s.pending
    requires s'.control.inProgress
    requires s'.control.attempts == CountAttempt(s.control, cause).attempts
    requires s'.control.cooldownUntil == if cause.Participant? then Some(s.now + RECOVERY_COOLDOWN) else s.control.cooldownUntil
    ensures RecoveryOk(s')
  {
    var e := Request(cause, attempt, s.now);
    assert cause.Participant? ==> LastAttempt(s.log, cause.user) <= AttemptsOf(s.control, cause);
    RequestsGrow(s.log, e);
    RequestedControl(s.control, s'.control, s.log, cause, attempt, s.now);
    EntryKeepsWatchdog(s, s', e);
  }

  lemma CommitOk(s: State, cause: Cause, open: bool)
    requires RecoveryOk(s) && MayRequest(s, cause)
    ensures RecoveryOk(Commit(s, cause, open).0)
  {
    var s' := Commit(s, cause, open).0;
    forall u ensures LastAttempt(s.log, u) <= MAX_RECOVERY_ATTEMPTS {
      AttemptsAreCapped(s.log, u);
    }
    if Commit(s, cause, open).1 == Queued {
      RequestedOk(s, s', cause, Next(AttemptsOf(s.control, cause)));
    } else if !s.control.inProgress {
      CountedOk(s.control, s'.control, s.log, cause, s.now);
      SameLogKeepsWatchdog(s, s');
    }
  }

  /** A request that is handed out keeps the rules exactly if it was due. */
  lemma QueuedIsDueExactly(s: State, cause: Cause, open: bool)
    requires RecoveryOk(s) && Commit(s, cause, open).1 == Queued
    ensures RecoveryOk(Commit(s, cause, open).0) <==> MayRequest(s, cause)
  {
    if MayRequest(s, cause) {
      CommitOk(s, cause, open);
    } else {
      var log := Commit(s, cause, open).0.log;
      assert log[..|s.log|] == s.log && !RequestOk(log[..|s.log|], log[|s.log|]);
    }
  }

  lemma RequestRecoveryOk(s: State, cause: Cause, open: bool)
    requires RecoveryOk(s)
    requires cause.Participant? ==>
      Waiting(s.log, cause.user).Some? && s.now - Waiting(s.log, cause.user).value.at >= AUDIO_DECODE_TIMEOUT
    ensures RecoveryOk(RequestRecovery(s, cause, open).0)
  {
    if !(cause.Participant? && s.control.cooldownUntil.Some? && s.now < s.control.cooldownUntil.value) {
      CommitOk(s, cause, open);
    }
  }

  /** The announcement a live timer belongs to is the one its user still waits on. */
  lemma TimerMeansSilence(s: State, t: Timer)
    requires WatchdogOk(s) && t in s.timers && t.user in s.pending && s.pending[t.user] == t.generation
    ensures Waiting(s.log, t.user).Some? && Waiting(s.log, t.user).value.at == t.armedAt
  {
    assert PendingOk(s, t.user);
    WaitingIsLogged(s.log, t.user);
  }

  lemma {:induction false} WaitingIsLogged(log: seq<LogEntry>, user: UserId)
    ensures Waiting(log, user).Some? ==>
      Waiting(log, user).value.Announced? && exists i :: 0 <= i < |log| && log[i] == Waiting(log, user).value
    decreases |log|
  {
    if log != [] {
      WaitingIsLogged(log[..|log| - 1], user);
    }
  }

  lemma TimerOk(s: State, t: Timer, open: bool)
    requires RecoveryOk(s) && t in s.timers && s.now - t.armedAt >= AUDIO_DECODE_TIMEOUT
    ensures RecoveryOk(OnTimer(s, t, open))
  {
    if t.user in s.pending && s.pending[t.user] == t.generation {
      TimerMeansSilence(s, t);
      var expired := s.(pending := s.pending - {t.user});
      SameLogOk(s, expired);
      RequestRecoveryOk(expired, Participant(t.user), open);
      var s1 := RequestRecovery(expired, Participant(t.user), open).0;
      SameLogOk(s1, Send(s1, Warning));
    }
  }

  lemma HearOk(s: State, p: Packet)
    requires RecoveryOk(s)
    ensures RecoveryOk(Hear(s, p))
  {
    if HeardIn(s, p).Some? {
      PlainEntryOk(s, Hear(s, p), Decoded(HeardIn(s, p).value));
    }
  }

  lemma {:induction false} HearAllOk(s: State, packets: seq<Packet>)
    requires RecoveryOk(s)
    ensures RecoveryOk(HearAll(s, packets))
    decreases |packets|
  {
    if packets != [] {
      HearAllOk(s, packets[..|packets| - 1]);
      HearOk(HearAll(s, packets[..|packets| - 1]), packets[|packets| - 1]);
    }
  }

  lemma DriverDownOk(s: State, requested: bool, silenced: seq<UserId>, open: bool)
    requires RecoveryOk(s)
    ensures RecoveryOk(OnDriverDisconnect(s, requested, silenced, open))
  {
    var cleared := Cleared(s, silenced);
    PlainEntryOk(s, cleared, DriverLost);
    RequestRecoveryOk(cleared, Driver, open);
    var s1 := RequestRecovery(cleared, Driver, open).0;
    SameLogOk(s1, Send(Send(s1, Warning), Disconnected));
    SameLogOk(cleared, Send(cleared, Disconnected));
  }

  lemma StepOk(s: State, step: Step)
    requires RecoveryOk(s) && Enabled(s, step)
    ensures RecoveryOk(Apply(s, step))
  {
    match step
    case Advance(to) => SameLogOk(s, s.(now := to));
    case Speaking(ssrc, user, microphone) => SpeakingOk(s, ssrc, user, microphone);
    case Wake(timer, open) => TimerOk(s, timer, open);
    case Receive(packets, started, stopped) =>
      HearAllOk(s, packets);
      SameLogOk(HearAll(s, packets), OnTick(s, packets, started, stopped));
    case Departure(user) => PlainEntryOk(s, OnDisconnect(s, user), Left(user));
    case DriverDown(requested, silenced, reachable) => DriverDownOk(s, requested, silenced, reachable);
    case FinishRequest => PlainEntryOk(s, Finish(s), Finished);
  }

  // ---- The stream of speaking events ----

  function After(before: set<UserId>, e: VoiceEvent): set<UserId> {
    if !e.SpeakingChanged? then before else if e.speaking then before + {e.user} else before - {e.user}
  }

  /** Who speaks after replaying the events. */
  function Replay(events: seq<VoiceEvent>): set<UserId> {
    if events == [] then {} else After(Replay(events[..|events| - 1]), events[|events| - 1])
  }

  /** Every change is one: it starts somebody silent or stops somebody speaking. */
  predicate Effective(events: seq<VoiceEvent>) {
    events != [] ==>
      var front, last := events[..|events| - 1], events[|events| - 1];
      Effective(front) && (last.SpeakingChanged? ==> last.speaking != (last.user in Replay(front)))
  }

  predicate OthersOnly(events: seq<VoiceEvent>, me: UserId) {
    forall e | e in events && e.Audio? :: e.user != me
  }

  ghost predicate StreamOk(s: State) {
    && Replay(s.events) == s.speaking && Effective(s.events) && OthersOnly(s.events, s.me)
  }

  lemma EventGrows(events: seq<VoiceEvent>, e: VoiceEvent)
    ensures Replay(events + [e]) == After(Replay(events), e)
    ensures Effective(events + [e]) <==>
              Effective(events) && (e.SpeakingChanged? ==> e.speaking != (e.user in Replay(events)))
  {
    assert (events + [e])[..|events|] == events;
  }

  lemma {:induction false} StartsReplay(events: seq<VoiceEvent>, users: seq<UserId>)
    requires Effective(events) && NoRepeats(users) && Listed(users) !! Replay(events)
    ensures Effective(events + Changes(users, true))
    ensures Replay(events + Changes(users, true)) == Replay(events) + Listed(users)
    decreases |users|
  {
    if users == [] {
      assert events + Changes(users, true) == events;
    } else {
      var front, last := users[..|users| - 1], users[|users| - 1];
      StartsReplay(events, front);
      EventGrows(events + Changes(front, true), SpeakingChanged(last, true));
      assert events + Changes(users, true) == events + Changes(front, true) + [SpeakingChanged(last, true)];
      assert last in Listed(users);
    }
  }

  lemma {:induction false} StopsReplay(events: seq<VoiceEvent>, users: seq<UserId>)
    requires Effective(events) && NoRepeats(users) && Listed(users) <= Replay(events)
    ensures Effective(events + Changes(users, false))
    ensures Replay(events + Changes(users, false)) == Replay(events) - Listed(users)
    decreases |users|
  {
    if users == [] {
      assert events + Changes(users, false) == events;
    } else {
      var front, last := users[..|users| - 1], users[|users| - 1];
      StopsReplay(events, front);
      EventGrows(events + Changes(front, false), SpeakingChanged(last, false));
      assert events + Changes(users, false) == events + Changes(front, false) + [SpeakingChanged(last, false)];
      assert last in Listed(users);
    }
  }

  lemma {:induction false} ChangesName(events: seq<VoiceEvent>, users: seq<UserId>, speaking: bool, me: UserId)
    ensures OthersOnly(events, me) ==> OthersOnly(events + Changes(users, speaking), me)
    decreases |users|
  {
    if users != [] {
      ChangesName(events, users[..|users| - 1], speaking, me);
      assert events + Changes(users, speaking) ==
             events + Changes(users[..|users| - 1], speaking) + [SpeakingChanged(users[|users| - 1], speaking)];
    }
  }

  /** An event that is no speaking change leaves the replay alone. */
  lemma QuietEvent(s: State, e: VoiceEvent)
    requires StreamOk(s) && !e.SpeakingChanged? && (e.Audio? ==> e.user != s.me)
    ensures StreamOk(Send(s, e))
  {
    EventGrows(s.events, e);
  }

  lemma HearStream(s: State, p: Packet)
    requires StreamOk(s)
    ensures StreamOk(Hear(s, p)) && Hear(s, p).speaking == s.speaking && Hear(s, p).ssrcs == s.ssrcs && Hear(s, p).me == s.me
  {
    if HeardIn(s, p).Some? {
      QuietEvent(s, Audio(HeardIn(s, p).value));
    }
  }

  lemma {:induction false} HearAllStream(s: State, packets: seq<Packet>)
    requires StreamOk(s)
    ensures var s' := HearAll(s, packets);
            StreamOk(s') && s'.speaking == s.speaking && s'.ssrcs == s.ssrcs && s'.me == s.me
    decreases |packets|
  {
    if packets != [] {
      HearAllStream(s, packets[..|packets| - 1]);
      HearStream(HearAll(s, packets[..|packets| - 1]), packets[|packets| - 1]);
    }
  }

  lemma TickStream(s: State, packets: seq<Packet>, started: seq<UserId>, stopped: seq<UserId>)
    requires StreamOk(s)
    requires Lists(started, ActiveIn(s, packets) - s.speaking) && Lists(stopped, s.speaking - ActiveIn(s, packets))
    ensures StreamOk(OnTick(s, packets, started, stopped))
  {
    HearAllStream(s, packets);
    var heard := HearAll(s, packets);
    StartsReplay(heard.events, started);
    ChangesName(heard.events, started, true, s.me);
    var on := heard.events + Changes(started, true);
    StopsReplay(on, stopped);
    ChangesName(on, stopped, false, s.me);
    var off := on + Changes(stopped, false);
    EventGrows(off, Tick);
    assert Replay(off) == ActiveIn(s, packets);
  }

  lemma DepartureStream(s: State, user: UserId)
    requires StreamOk(s)
    ensures StreamOk(OnDisconnect(s, user))
  {
    var silent := if user in s.speaking
                  then Send(s.(speaking := s.speaking - {user}), SpeakingChanged(user, false)) else s;
    EventGrows(s.events, SpeakingChanged(user, false));
    QuietEvent(silent, ParticipantLeft(user));
  }

  lemma RequestKeepsStream(s: State, cause: Cause, open: bool)
    ensures var s' := RequestRecovery(s, cause, open).0;
            s'.events == s.events && s'.speaking == s.speaking && s'.me == s.me
  {
  }

  lemma DriverDownStream(s: State, requested: bool, silenced: seq<UserId>, open: bool)
    requires StreamOk(s) && Lists(silenced, s.speaking)
    ensures StreamOk(OnDriverDisconnect(s, requested, silenced, open))
    ensures Replay(OnDriverDisconnect(s, requested, silenced, open).events) == {}
  {
    var cleared := Cleared(s, silenced);
    StopsReplay(s.events, silenced);
    ChangesName(s.events, silenced, false, s.me);
    QuietEvent(cleared, Disconnected);
    var s1 := RequestRecovery(cleared, Driver, open).0;
    RequestKeepsStream(cleared, Driver, open);
    QuietEvent(s1, Warning);
    QuietEvent(Send(s1, Warning), Disconnected);
  }

  lemma StepStream(s: State, step: Step)
    requires StreamOk(s) && Enabled(s, step)
    ensures StreamOk(Apply(s, step))
  {
    match step
    case Wake(timer, open) =>
      var s1 := RequestRecovery(s.(pending := s.pending - {timer.user}), Participant(timer.user), open).0;
      RequestKeepsStream(s.(pending := s.pending - {timer.user}), Participant(timer.user), open);
      QuietEvent(s1, Warning);
    case Receive(packets, started, stopped) => TickStream(s, packets, started, stopped);
    case Departure(user) => DepartureStream(s, user);
    case DriverDown(requested, silenced, reachable) => DriverDownStream(s, requested, silenced, reachable);
    case _ =>
  }

  /** The changes of one user, in order. */
  function ChangesOf(events: seq<VoiceEvent>, user: UserId): seq<bool> {
    if events == [] then []
    else
      var last := events[|events| - 1];
      ChangesOf(events[..|events| - 1], user) +
      (if last.SpeakingChanged? && last.user == user then [last.speaking] else [])
  }

  /** Per user the changes strictly alternate and begin with a start. */
  lemma {:induction false} ChangesAlternate(events: seq<VoiceEvent>, user: UserId)
    requires Effective(events)
    ensures var changes := ChangesOf(events, user);
            && (forall i | 0 <= i < |changes| :: changes[i] == (i % 2 == 0))
            && (user in Replay(events) <==> |changes| % 2 == 1)
    decreases |events|
  {
    if events != [] {
      ChangesAlternate(events[..|events| - 1], user);
    }
  }

  // ---- Main results ----

  lemma {:induction false} RunOk(me: UserId, steps: seq<Step>)
    ensures RecoveryOk(Run(me, steps)) && StreamOk(Run(me, steps)) && Run(me, steps).me == me
    decreases |steps|
  {
    if steps != [] {
      var s, step := Run(me, steps[..|steps| - 1]), steps[|steps| - 1];
      RunOk(me, steps[..|steps| - 1]);
      if Enabled(s, step) {
        StepOk(s, step);
        StepStream(s, step);
        StepKeepsMe(s, step);
      }
    }
  }

  lemma {:induction false} HearAllKeepsMe(s: State, packets: seq<Packet>)
    ensures HearAll(s, packets).me == s.me
    decreases |packets|
  {
    if packets != [] {
      HearAllKeepsMe(s, packets[..|packets| - 1]);
    }
  }

  lemma StepKeepsMe(s: State, step: Step)
    ensures Apply(s, step).me == s.me
  {
    if step.Receive? {
      HearAllKeepsMe(s, step.packets);
    }
  }

  /** Over every run, requests follow 6 s of silence, count up to 3, and keep 30 s apart; at most one is outstanding. */
  lemma RequestsKeepTheRules(me: UserId, steps: seq<Step>)
    ensures var s := Run(me, steps);
            RequestsOk(s.log) && 0 <= Outstanding(s.log) <= 1
  {
    RunOk(me, steps);
  }

  /** Over every run, a participant request answers an announcement 6 s old, with no decoded audio since. */
  lemma RequestFollowsSilence(me: UserId, steps: seq<Step>, i: nat)
    requires i < |Run(me, steps).log|
    requires Run(me, steps).log[i].Request? && Run(me, steps).log[i].cause.Participant?
    ensures var log := Run(me, steps).log;
            exists j :: 0 <= j < i && SilentSince(log[..i], log[i].cause.user, j)
                        && log[i].at - log[j].at >= AUDIO_DECODE_TIMEOUT
  {
    RunOk(me, steps);
    var log := Run(me, steps).log;
    assert RequestOk(log[..i], log[i]);
    WaitingMeansSilence(log[..i], log[i].cause.user);
  }

  /** Over every run, replaying the events gives who speaks, every change is one, and no audio is Kuali's own. */
  lemma EventsReplayToSpeaking(me: UserId, steps: seq<Step>)
    ensures var s := Run(me, steps);
            Replay(s.events) == s.speaking && Effective(s.events) && OthersOnly(s.events, me)
  {
    RunOk(me, steps);
  }

  /** Between two resets at most three requests are made for a user. */
  lemma {:induction false} AtMostThreeRequests(log: seq<LogEntry>, user: UserId)
    requires RequestsOk(log)
    ensures RequestsSinceReset(log, user) <= LastAttempt(log, user) <= MAX_RECOVERY_ATTEMPTS
    decreases |log|
  {
    if log != [] {
      RequestsOfFront(log);
      AtMostThreeRequests(log[..|log| - 1], user);
      assert RequestOk(log[..|log| - 1], log[|log| - 1]);
    }
  }

  /** `i` announces the user, and nothing of the user, nor a lost driver, follows. */
  predicate SilentSince(log: seq<LogEntry>, user: UserId, i: nat) {
    && i < |log| && log[i].Announced? && log[i].user == user
    && forall j | i < j < |log| ::
         && !log[j].DriverLost? && !(log[j].Announced? && log[j].user == user)
         && !(log[j].Decoded? && log[j].user == user) && !(log[j].Left? && log[j].user == user)
  }

  /** `Waiting` names the last announcement, with nothing of the user heard since. */
  lemma {:induction false} WaitingMeansSilence(log: seq<LogEntry>, user: UserId)
    requires Waiting(log, user).Some?
    ensures exists i :: 0 <= i < |log| && SilentSince(log, user, i) && log[i] == Waiting(log, user).value
    decreases |log|
  {
    var front, last := log[..|log| - 1], log[|log| - 1];
    if last.Announced? && last.user == user {
      assert SilentSince(log, user, |log| - 1);
    } else {
      WaitingMeansSilence(front, user);
      var i :| 0 <= i < |front| && SilentSince(front, user, i) && front[i] == Waiting(front, user).value;
      assert forall j | 0 <= j < |front| :: log[j] == front[j];
      assert SilentSince(log, user, i);
    }
  }

  lemma DepartureForgets(s: State, user: UserId)
    requires StreamOk(s)
    ensures var s' := OnDisconnect(s, user);
            && Replay(s'.events) == Replay(s.events) - {user}
            && Waiting(s'.log, user) == None && RequestsSinceReset(s'.log, user) == 0
            && (forall k | k in s'.ssrcs :: s'.ssrcs[k] != user)
  {
    DepartureStream(s, user);
    LogGrows(s.log, Left(user), user);
  }

  lemma DriverLossSettled(s: State, requested: bool, silenced: seq<UserId>, open: bool)
    requires RecoveryOk(s) && StreamOk(s) && Lists(silenced, s.speaking)
    ensures var s' := OnDriverDisconnect(s, requested, silenced, open);
            RecoveryOk(s') && StreamOk(s') && Replay(s'.events) == {} && s'.pending == map[]
  {
    DriverDownOk(s, requested, silenced, open);
    DriverDownStream(s, requested, silenced, open);
    RequestKeepsPending(Cleared(s, silenced), Driver, open);
  }

  /** The earlier watchdogs of the user find nothing to do. */
  predicate Voided(s: State, timers: seq<Timer>, user: UserId) {
    forall t | t in timers && t.user == user :: user !in s.pending || s.pending[user] != t.generation
  }

  lemma AnnouncementArms(s: State, ssrc: nat, user: UserId)
    requires RecoveryOk(s) && user != s.me
    ensures var s' := OnSpeaking(s, ssrc, Some(user), true);
            Waiting(s'.log, user) == Some(Announced(user, s'.nextGeneration, s.now)) && Voided(s', s.timers, user)
  {
    LogGrows(s.log, Announced(user, s.nextGeneration + 1, s.now), user);
  }

  /** The announcement the watchdog belongs to, with nothing of the user since. */
  predicate AnswersSilence(log: seq<LogEntry>, t: Timer) {
    exists i | 0 <= i < |log| && SilentSince(log, t.user, i) :: log[i].at == t.armedAt
  }

  lemma WatchdogAnswers(s: State, t: Timer, open: bool)
    requires RecoveryOk(s) && t in s.timers
    ensures OnTimer(s, t, open).log != s.log ==> AnswersSilence(s.log, t)
  {
    if t.user in s.pending && s.pending[t.user] == t.generation {
      TimerMeansSilence(s, t);
      WaitingMeansSilence(s.log, t.user);
    }
  }

  lemma RequestKeepsPending(s: State, cause: Cause, open: bool)
    ensures RequestRecovery(s, cause, open).0.pending == s.pending
  {
  }

  lemma WatchdogIsSpent(s: State, t: Timer, open: bool)
    ensures forall again :: OnTimer(OnTimer(s, t, open), t, again) == OnTimer(s, t, open)
  {
    RequestKeepsPending(s.(pending := s.pending - {t.user}), Participant(t.user), open);
  }

  // ---- Whose audio a packet carries ----

  /** The step names somebody other than Kuali as the owner of the stream. */
  predicate NamesStream(me: UserId, step: Step, ssrc: nat) {
    step.Speaking? && step.ssrc == ssrc && step.announced.Some? && step.announced.value != me
  }

  /** The stream is another's or nobody's after the step `j`: it was named anew, its owner left, or the driver was lost. */
  ghost predicate EndsStream(me: UserId, steps: seq<Step>, j: nat, ssrc: nat, user: UserId)
    requires j < |steps|
  {
    || NamesStream(me, steps[j], ssrc)
    || steps[j] == Departure(user)
    || (steps[j].DriverDown? && Enabled(Run(me, steps[..j]), steps[j]))
  }

  /** The announcement at `k` made the stream the user's, and nothing ended that. */
  ghost predicate OwnsSince(me: UserId, steps: seq<Step>, k: nat, ssrc: nat, user: UserId) {
    && k < |steps| && NamesStream(me, steps[k], ssrc) && steps[k].announced == Some(user)
    && forall j | k < j < |steps| :: !EndsStream(me, steps, j, ssrc, user)
  }

  ghost predicate Owns(me: UserId, steps: seq<Step>, ssrc: nat, user: UserId) {
    exists k: nat :: OwnsSince(me, steps, k, ssrc, user)
  }

  lemma {:induction false} HearAllKeepsStreams(s: State, packets: seq<Packet>)
    ensures HearAll(s, packets).ssrcs == s.ssrcs && HearAll(s, packets).me == s.me
    decreases |packets|
  {
    if packets != [] {
      HearAllKeepsStreams(s, packets[..|packets| - 1]);
    }
  }

  lemma RequestKeepsStreams(s: State, cause: Cause, open: bool)
    ensures var s' := RequestRecovery(s, cause, open).0; s'.ssrcs == s.ssrcs && s'.me == s.me
  {
  }

  /** What a step does to the owners of streams. */
  lemma StepStreams(s: State, step: Step)
    ensures Apply(s, step).me == s.me
    ensures Apply(s, step).ssrcs ==
            if step.Speaking? && NamesStream(s.me, step, step.ssrc) then s.ssrcs[step.ssrc := step.announced.value]
            else if step.Departure? then WithoutUser(s.ssrcs, step.leaving)
            else if step.DriverDown? then map[] else s.ssrcs
  {
    match step
    case Wake(t, open) => RequestKeepsStreams(s.(pending := s.pending - {t.user}), Participant(t.user), open);
    case Receive(packets, _, _) => HearAllKeepsStreams(s, packets);
    case DriverDown(_, silenced, open) => RequestKeepsStreams(Cleared(s, silenced), Driver, open);
    case _ =>
  }

  /** An owner stays for one more step unless that ends it, and becomes one only by being named. */
  lemma OwnsGrows(me: UserId, steps: seq<Step>, step: Step, ssrc: nat, user: UserId)
    ensures Owns(me, steps + [step], ssrc, user) <==>
            || (NamesStream(me, step, ssrc) && step.announced == Some(user))
            || (Owns(me, steps, ssrc, user) && !NamesStream(me, step, ssrc) && step != Departure(user)
                && !(step.DriverDown? && Enabled(Run(me, steps), step)))
  {
    var longer, n := steps + [step], |steps|;
    assert longer[..n] == steps && longer[n] == step;
    forall j: nat | j < n ensures EndsStream(me, longer, j, ssrc, user) <==> EndsStream(me, steps, j, ssrc, user) {
      assert longer[..j] == steps[..j] && longer[j] == steps[j];
    }
    if NamesStream(me, step, ssrc) && step.announced == Some(user) {
      assert OwnsSince(me, longer, n, ssrc, user);
    }
    if k: nat :| OwnsSince(me, steps, k, ssrc, user) {
      if !EndsStream(me, longer, n, ssrc, user) {
        assert OwnsSince(me, longer, k, ssrc, user);
      }
    }
    if k: nat :| OwnsSince(me, longer, k, ssrc, user) {
      if k < n {
        assert !EndsStream(me, longer, n, ssrc, user);
        assert OwnsSince(me, steps, k, ssrc, user);
      }
    }
  }

  predicate OwnsNow(s: State, ssrc: nat, user: UserId) {
    ssrc in s.ssrcs && s.ssrcs[ssrc] == user
  }

  /** Over every run, a stream is its latest announced owner's, unless that user left or the driver was lost. */
  lemma {:induction false} StreamOwnerExactly(me: UserId, steps: seq<Step>, ssrc: nat, user: UserId)
    ensures Run(me, steps).me == me
    ensures OwnsNow(Run(me, steps), ssrc, user) <==> Owns(me, steps, ssrc, user)
    decreases |steps|
  {
    if steps != [] {
      var front, last := steps[..|steps| - 1], steps[|steps| - 1];
      StreamOwnerExactly(me, front, ssrc, user);
      OwnsGrows(me, front, last, ssrc, user);
      assert steps == front + [last];
      StepStreams(Run(me, front), last);
    }
  }

  /** The audio of a packet: its owner's, if it has samples and an owner. */
  ghost function Carried(me: UserId, steps: seq<Step>, p: Packet): seq<VoiceEvent> {
    if p.pcm.Some? && p.pcm.value > 0 && exists user :: Owns(me, steps, p.ssrc, user)
    then var user :| Owns(me, steps, p.ssrc, user); [Audio(user)] else []
  }

  ghost function CarriedAll(me: UserId, steps: seq<Step>, packets: seq<Packet>): seq<VoiceEvent> {
    if packets == [] then []
    else CarriedAll(me, steps, packets[..|packets| - 1]) + Carried(me, steps, packets[|packets| - 1])
  }

  lemma CarriedIsHeard(me: UserId, steps: seq<Step>, p: Packet)
    ensures var heard := HeardIn(Run(me, steps), p);
            Carried(me, steps, p) == if heard.Some? then [Audio(heard.value)] else []
  {
    var s := Run(me, steps);
    forall user ensures OwnsNow(s, p.ssrc, user) <==> Owns(me, steps, p.ssrc, user) {
      StreamOwnerExactly(me, steps, p.ssrc, user);
    }
    StreamOwnerExactly(me, steps, p.ssrc, me);
    if p.ssrc in s.ssrcs {
      assert OwnsNow(s, p.ssrc, s.ssrcs[p.ssrc]);
    }
  }

  lemma {:induction false} HearAllSends(me: UserId, steps: seq<Step>, packets: seq<Packet>)
    ensures HearAll(Run(me, steps), packets).events == Run(me, steps).events + CarriedAll(me, steps, packets)
    decreases |packets|
  {
    if packets != [] {
      var front, last := packets[..|packets| - 1], packets[|packets| - 1];
      HearAllSends(me, steps, front);
      HearAllKeepsStreams(Run(me, steps), front);
      CarriedIsHeard(me, steps, last);
      assert HeardIn(HearAll(Run(me, steps), front), last) == HeardIn(Run(me, steps), last);
    }
  }

  /** Who is named by audio. */
  function Voices(events: seq<VoiceEvent>): set<UserId> {
    set e | e in events && e.Audio? :: e.user
  }

  lemma {:induction false} VoicesAreActive(me: UserId, steps: seq<Step>, packets: seq<Packet>)
    ensures Voices(CarriedAll(me, steps, packets)) == ActiveIn(Run(me, steps), packets)
    decreases |packets|
  {
    if packets != [] {
      var front, last := packets[..|packets| - 1], packets[|packets| - 1];
      VoicesAreActive(me, steps, front);
      CarriedVoices(me, steps, last);
      ActiveGrows(Run(me, steps), front, last);
      assert packets == front + [last];
      VoicesJoin(CarriedAll(me, steps, front), Carried(me, steps, last));
    }
  }

  lemma CarriedVoices(me: UserId, steps: seq<Step>, p: Packet)
    ensures var heard := HeardIn(Run(me, steps), p);
            Voices(Carried(me, steps, p)) == if heard.Some? then {heard.value} else {}
  {
    CarriedIsHeard(me, steps, p);
    NamesItsSpeaker(HeardIn(Run(me, steps), p));
  }

  lemma NamesItsSpeaker(heard: Option<UserId>)
    ensures Voices(if heard.Some? then [Audio(heard.value)] else []) == if heard.Some? then {heard.value} else {}
  {
    if heard.Some? {
      assert Audio(heard.value) in [Audio(heard.value)];
    }
  }

  lemma VoicesJoin(a: seq<VoiceEvent>, b: seq<VoiceEvent>)
    ensures Voices(a + b) == Voices(a) + Voices(b)
  {
  }

  lemma ActiveGrows(s: State, packets: seq<Packet>, p: Packet)
    ensures ActiveIn(s, packets + [p]) ==
            ActiveIn(s, packets) + if HeardIn(s, p).Some? then {HeardIn(s, p).value} else {}
  {
    var longer := packets + [p];
    assert forall i | 0 <= i < |packets| :: longer[i] == packets[i];
    assert longer[|packets|] == p;
    forall u | u in ActiveIn(s, packets) ensures u in ActiveIn(s, longer) {
      var i :| 0 <= i < |packets| && HeardIn(s, packets[i]).Some? && HeardIn(s, packets[i]).value == u;
      assert HeardIn(s, longer[i]).Some?;
    }
    if HeardIn(s, p).Some? {
      assert HeardIn(s, longer[|packets|]).Some?;
    }
  }

  /**
   After every run, a tick sends the audio of exactly the packets that have samples and an
   owner, in order and in the owner's name; then who began and who stopped; and last itself.
   Those heard are the ones who speak afterwards.
   */
  lemma TickSendsExactly(me: UserId, steps: seq<Step>, packets: seq<Packet>, started: seq<UserId>, stopped: seq<UserId>)
    requires Enabled(Run(me, steps), Receive(packets, started, stopped))
    ensures var s, s' := Run(me, steps), Run(me, steps + [Receive(packets, started, stopped)]);
            var audio := CarriedAll(me, steps, packets);
            && s'.events == s.events + audio + Changes(started, true) + Changes(stopped, false) + [Tick]
            && s'.speaking == Voices(audio)
            && Lists(started, Voices(audio) - s.speaking) && Lists(stopped, s.speaking - Voices(audio))
  {
    var step := Receive(packets, started, stopped);
    assert (steps + [step])[..|steps|] == steps;
    HearAllSends(me, steps, packets);
    VoicesAreActive(me, steps, packets);
  }

  /** What a departure leaves, field by field. */
  lemma LeftIs(s: State, s': State, user: UserId)
    requires s'.ssrcs == WithoutUser(s.ssrcs, user) && s'.speaking == s.speaking - {user}
    requires s'.pending == s.pending - {user} && s'.control == s.control.(attempts := s.control.attempts - {user})
    requires s'.events == s.events + (if user in s.speaking then [SpeakingChanged(user, false)] else []) + [ParticipantLeft(user)]
    requires s'.log == s.log + [Left(user)]
    requires s'.me == s.me && s'.now == s.now && s'.nextGeneration == s.nextGeneration && s'.timers == s.timers
    ensures s' == OnDisconnect(s, user)
  {
    assert s.events + [] == s.events;
    assert user !in s.speaking ==> s.speaking - {user} == s.speaking;
  }

  // ---- The receiver, changed in place ----

  class Receiver {
    const me: UserId
    var now: Time
    var ssrcs: map<nat, UserId>
    var speakingUsers: set<UserId>
    var pending: map<UserId, nat>
    var nextGeneration: nat
    var timers: seq<Timer>
    var inProgress: bool
    var cooldownUntil: Option<Time>
    var attempts: map<UserId, nat>
    var driverAttempts: nat
    var events: seq<VoiceEvent>
    ghost var log: seq<LogEntry>
    ghost var steps: seq<Step>

    ghost function View(): State
      reads this
    {
      State(me, now, ssrcs, speakingUsers, pending, nextGeneration, timers,
            Control(inProgress, cooldownUntil, attempts, driverAttempts), events, log)
    }

    /** The object is what its steps make of a new one: requests kept the rules, and the events replay to who speaks. */
    ghost predicate Valid()
      reads this
    {
      View() == Run(me, steps) && RecoveryOk(View()) && StreamOk(View())
    }

    constructor (me: UserId)
      ensures Valid() && this.me == me && steps == []
    {
      this.me := me;
      now, ssrcs, speakingUsers, pending := 0, map[], {}, map[];
      nextGeneration, timers := 0, [];
      inProgress, cooldownUntil, attempts, driverAttempts := false, None, map[], 0;
      events, log, steps := [], [], [];
      new;
      RunOk(me, []);
    }

    ghost method Took(step: Step, before: State)
      requires before == Run(me, steps) && RecoveryOk(before) && StreamOk(before)
      requires Enabled(before, step) && View() == Apply(before, step)
      modifies this`steps
      ensures Valid() && steps == old(steps) + [step]
    {
      StepOk(before, step);
      StepStream(before, step);
      assert (steps + [step])[..|steps|] == steps;
      steps := steps + [step];
    }

    method Wait(to: Time)
      requires Valid() && now <= to
      modifies this`now, this`steps
      ensures View() == old(View()).(now := to) && Valid() && steps == old(steps) + [Advance(to)]
    {
      ghost var before := View();
      now := to;
      Took(Advance(to), before);
    }

    method TryRecovery(cause: Cause, open: bool) returns (outcome: Outcome)
      modifies this
      ensures steps == old(steps)
      ensures (View(), outcome) == RequestRecovery(old(View()), cause, open)
    {
      if cause != Driver && cooldownUntil.Some? && now < cooldownUntil.value {
        return AlreadyRecovering;
      }
      if inProgress {
        return AlreadyRecovering;
      }
      inProgress := true;
      var attempt;
      match cause {
        case Participant(user) =>
          attempt := Next(if user in attempts then attempts[user] else 0);
          attempts := attempts[user := attempt];
        case Driver =>
          attempt := Next(driverAttempts);
          driverAttempts := attempt;
      }
      if attempt > MAX_RECOVERY_ATTEMPTS {
        inProgress := false;
        return Exhausted;
      }
      if cause != Driver {
        cooldownUntil := Some(now + RECOVERY_COOLDOWN);
      }
      if !open {
        inProgress := false;
        return Unavailable;
      }
      log := log + [Request(cause, attempt, now)];
      return Queued;
    }

    method Announce(ssrc: nat, user: Option<UserId>, microphone: bool)
      modifies this
      ensures steps == old(steps)
      ensures View() == OnSpeaking(old(View()), ssrc, user, microphone)
    {
      if user.None? || user.value == me {
        return;
      }
      ssrcs := ssrcs[ssrc := user.value];
      if microphone {
        nextGeneration := nextGeneration + 1;
        pending := pending[user.value := nextGeneration];
        timers := timers + [Timer(user.value, nextGeneration, now)];
        log := log + [Announced(user.value, nextGeneration, now)];
      }
    }

    /** Whoever is announced is waited for from now on, and its earlier watchdogs are void. */
    method OnSpeakingUpdate(ssrc: nat, user: Option<UserId>, microphone: bool)
      requires Valid()
      modifies this
      ensures View() == OnSpeaking(old(View()), ssrc, user, microphone) && Valid()
      ensures steps == old(steps) + [Speaking(ssrc, user, microphone)]
      ensures user.Some? && user.value != me && microphone ==>
                && Waiting(log, user.value) == Some(Announced(user.value, nextGeneration, now))
                && Timer(user.value, nextGeneration, now) in timers
                && Voided(View(), old(timers), user.value)
    {
      ghost var before := View();
      if user.Some? && user.value != me && microphone {
        AnnouncementArms(View(), ssrc, user.value);
      }
      Announce(ssrc, user, microphone);
      Took(Speaking(ssrc, user, microphone), before);
    }

    method WakeUp(t: Timer, open: bool)
      modifies this
      ensures steps == old(steps)
      ensures View() == OnTimer(old(View()), t, open)
    {
      if t.user in pending && pending[t.user] == t.generation {
        pending := pending - {t.user};
        var outcome := TryRecovery(Participant(t.user), open);
        if outcome == Exhausted || outcome == Unavailable {
          events := events + [Warning];
        }
      }
    }

    /** The spawned watchdog task after its sleep: it asks only after silence, and never twice. */
    method OnWatchdog(t: Timer, open: bool)
      requires Valid() && t in timers && now - t.armedAt >= AUDIO_DECODE_TIMEOUT
      modifies this
      ensures View() == OnTimer(old(View()), t, open) && Valid() && steps == old(steps) + [Wake(t, open)]
      ensures log != old(log) ==> AnswersSilence(old(log), t)
      ensures forall again :: OnTimer(View(), t, again) == View()
    {
      ghost var before := View();
      WatchdogAnswers(View(), t, open);
      WatchdogIsSpent(View(), t, open);
      WakeUp(t, open);
      Took(Wake(t, open), before);
    }

    method HearPacket(p: Packet) returns (user: Option<UserId>)
      modifies this
      ensures steps == old(steps)
      ensures View() == Hear(old(View()), p) && user == HeardIn(old(View()), p)
    {
      if p.ssrc !in ssrcs || ssrcs[p.ssrc] == me || p.pcm.None? || p.pcm.value == 0 {
        return None;
      }
      var heard := ssrcs[p.ssrc];
      pending := pending - {heard};
      attempts := attempts - {heard};
      driverAttempts := 0;
      events := events + [Audio(heard)];
      log := log + [Decoded(heard)];
      return Some(heard);
    }

    /** Announces a change for each member of a set, in whatever order the set yields them. */
    method SendChanges(users: set<UserId>, speaking: bool) returns (ghost listed: seq<UserId>)
      modifies this`events
      ensures Lists(listed, users)
      ensures events == old(events) + Changes(listed, speaking)
    {
      listed := [];
      var rest := users;
      assert events == old(events) + Changes([], speaking);
      while rest != {}
        invariant rest <= users && Lists(listed, users - rest)
        invariant events == old(events) + Changes(listed, speaking)
        decreases |rest|
      {
        var user :| user in rest;
        ListedGrows(listed, users - rest, user, speaking);
        assert users - (rest - {user}) == users - rest + {user};
        ghost var before := Changes(listed, speaking);
        rest := rest - {user};
        listed := listed + [user];
        events := events + [SpeakingChanged(user, speaking)];
        assert events == old(events) + (before + [SpeakingChanged(user, speaking)]);
      }
      assert users - rest == users;
    }

    method HearPackets(packets: seq<Packet>) returns (activeUsers: set<UserId>)
      modifies this
      ensures steps == old(steps)
      ensures View() == HearAll(old(View()), packets) && activeUsers == ActiveIn(old(View()), packets)
    {
      activeUsers := {};
      assert packets[..0] == [];
      for i := 0 to |packets|
        invariant View() == HearAll(old(View()), packets[..i])
        invariant ssrcs == old(ssrcs) && steps == old(steps)
        invariant activeUsers ==
          set k | 0 <= k < i && HeardIn(old(View()), packets[k]).Some? :: HeardIn(old(View()), packets[k]).value
      {
        assert packets[..i + 1][..i] == packets[..i];
        var heard := HearPacket(packets[i]);
        if heard.Some? {
          activeUsers := activeUsers + {heard.value};
        }
      }
      assert packets[..|packets|] == packets;
    }

    /** Sends the audio of the packets, who began and who stopped to speak, and the tick itself. */
    method OnVoiceTick(packets: seq<Packet>) returns (ghost started: seq<UserId>, ghost stopped: seq<UserId>)
      requires Valid()
      modifies this
      ensures Valid() && steps == old(steps) + [Receive(packets, started, stopped)]
      ensures var audio, before := CarriedAll(me, old(steps), packets), old(speakingUsers);
              && events == old(events) + audio + Changes(started, true) + Changes(stopped, false) + [Tick]
              && Lists(started, Voices(audio) - before) && Lists(stopped, before - Voices(audio))
              && Replay(events) == Voices(audio)
    {
      ghost var before := View();
      HearAllSpeaking(View(), packets);
      var activeUsers := HearPackets(packets);
      var previous := speakingUsers;
      speakingUsers := activeUsers;
      started := SendChanges(activeUsers - previous, true);
      stopped := SendChanges(previous - activeUsers, false);
      events := events + [Tick];
      TickSendsExactly(me, steps, packets, started, stopped);
      Took(Receive(packets, started, stopped), before);
    }

    method StopSpeaking(user: UserId)
      modifies this`speakingUsers, this`events
      ensures speakingUsers == old(speakingUsers) - {user}
      ensures events == old(events) + if user in old(speakingUsers) then [SpeakingChanged(user, false)] else []
    {
      assert events + [] == events;
      if user in speakingUsers {
        speakingUsers := speakingUsers - {user};
        events := events + [SpeakingChanged(user, false)];
      }
    }

    method ForgetUser(user: UserId)
      modifies this
      ensures steps == old(steps)
      ensures View() == OnDisconnect(old(View()), user)
    {
      ssrcs := map k | k in ssrcs && ssrcs[k] != user :: ssrcs[k];
      StopSpeaking(user);
      pending := pending - {user};
      attempts := attempts - {user};
      events := events + [ParticipantLeft(user)];
      log := log + [Left(user)];
      LeftIs(old(View()), View(), user);
    }

    /** Who left speaks no more, is not waited for, and starts over with three requests. */
    method OnClientDisconnect(user: UserId)
      requires Valid()
      modifies this
      ensures View() == OnDisconnect(old(View()), user) && Valid() && steps == old(steps) + [Departure(user)]
      ensures Replay(events) == old(Replay(events)) - {user}
      ensures Waiting(log, user) == None && RequestsSinceReset(log, user) == 0
      ensures forall k | k in ssrcs :: ssrcs[k] != user
    {
      ghost var before := View();
      DepartureForgets(View(), user);
      ForgetUser(user);
      Took(Departure(user), before);
    }

    /** Nobody speaks and nobody is waited for after the driver is lost. */
    method OnDriverLost(requested: bool, open: bool) returns (ghost silenced: seq<UserId>)
      requires Valid()
      modifies this
      ensures View() == OnDriverDisconnect(old(View()), requested, silenced, open) && Valid()
      ensures steps == old(steps) + [DriverDown(requested, silenced, open)]
      ensures Enabled(old(View()), DriverDown(requested, silenced, open))
      ensures Replay(events) == {} && pending == map[]
    {
      ghost var before := View();
      silenced := SilenceAll();
      DriverLossSettled(before, requested, silenced, open);
      AskForDriver(requested, open);
      Took(DriverDown(requested, silenced, open), before);
    }

    method SilenceAll() returns (ghost silenced: seq<UserId>)
      modifies this
      ensures steps == old(steps)
      ensures Lists(silenced, old(speakingUsers))
      ensures View() == Cleared(old(View()), silenced)
    {
      var speaking := speakingUsers;
      speakingUsers := {};
      silenced := SendChanges(speaking, false);
      ssrcs := map[];
      pending := map[];
      log := log + [DriverLost];
    }

    method AskForDriver(requested: bool, open: bool)
      modifies this
      ensures steps == old(steps)
      ensures View() == AfterClearing(old(View()), requested, open)
    {
      if requested {
        events := events + [Disconnected];
        return;
      }
      var outcome := TryRecovery(Driver, open);
      if outcome == Exhausted || outcome == Unavailable {
        events := events + [Warning] + [Disconnected];
      }
    }

    /** No request is outstanding any more, so the next one may be made. */
    method FinishRecovery()
      requires Valid() && Outstanding(log) > 0
      modifies this
      ensures View() == Finish(old(View())) && Valid() && steps == old(steps) + [FinishRequest]
      ensures Outstanding(log) == 0
    {
      ghost var before := View();
      StepOk(before, FinishRequest);
      LogGrows(log, Finished, 0);
      inProgress := false;
      log := log + [Finished];
      Took(FinishRequest, before);
    }
  }

  lemma ListedGrows(listed: seq<UserId>, s: set<UserId>, user: UserId, speaking: bool)
    requires Lists(listed, s) && user !in s
    ensures Lists(listed + [user], s + {user})
    ensures Changes(listed + [user], speaking) == Changes(listed, speaking) + [SpeakingChanged(user, speaking)]
  {
    assert (listed + [user])[..|listed|] == listed;
  }

  lemma {:induction false} HearAllSpeaking(s: State, packets: seq<Packet>)
    ensures HearAll(s, packets).speaking == s.speaking
    decreases |packets|
  {
    if packets != [] {
      HearAllSpeaking(s, packets[..|packets| - 1]);
    }
  }
}
