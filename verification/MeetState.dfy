/**
 The Meet routing machine of `browser-extension/src/page-capture.js` as a state and its
 steps. Everything that is kept there under one source key (the route, its vote, the
 PCM buffers, the arbitration and the lease) is one `Lane`; routes are never removed, so
 the lane of a source stands for its route object. One clock reading serves a whole
 step. `LaneHistory`, `claimLog` and the generation stamped on a sample are history:
 no step reads them.
 */
module MeetState {
  import opened Wrappers
  import opened CapturePolicy
  import opened PcmFraming
  import A = PcmArbitration

  type Source = string
  type Receiver = A.Receiver
  type Time = A.Time
  type DeviceId = string
  type Channel = nat
  type EntryId = nat

  const NO_DEVICE: DeviceId := ""
  const VIDEO_SOURCE: Source := "42"
  const MIC_CHANNEL: Channel := 1000
  const CHALLENGE_SAMPLES: int := 16000
  const PENDING_FRAMES: nat := 80
  const CLAIM_MS: Time := 750.0
  const LOUD_PEAK: real := 0.01

  // ---- Data ----

  /** A sample with the generation its route had when the sample was accepted. */
  datatype Sample = Sample(level: real, generation: nat)
  /** A partial block; a full one is published at once. */
  type Buffer = b: seq<Sample> | |b| < BLOCK witness []
  datatype Chunk = Chunk(entry: EntryId, samples: seq<real>)
  datatype Audio = Audio(channel: Channel, block: seq<Sample>)

  datatype Route = Route(
    deviceId: DeviceId,
    protocolRawDeviceId: DeviceId,
    protocolDeviceId: DeviceId,
    activityDeviceId: DeviceId,
    overriddenProtocolRawDeviceId: DeviceId,
    protocolStale: bool,
    generation: nat,
    channel: Channel)

  datatype User = User(parentDeviceId: DeviceId, isCurrentUser: bool)
  datatype Active = Active(id: DeviceId, isSelf: bool)
  datatype Claim = Claim(source: Source, lastAt: Time)
  datatype Entry = Entry(receiver: Receiver, path: A.Path, released: bool)
  datatype Decision = Send | Drop | Hold | Rebind

  /** One correlation of a source's audio with the active tiles. */
  datatype Observation = Observation(at: Time, sole: Option<DeviceId>, loud: bool, owner: DeviceId)

  datatype ClaimEvent =
    | Confirmed(source: Source, deviceId: DeviceId, at: Time)
    | Lost(source: Source, deviceId: DeviceId)
    | Wiped

  /** An activity rebind, with what had been observed and claimed when it happened. */
  datatype RebindRecord = RebindRecord(
    deviceId: DeviceId, at: Time, observations: seq<Observation>, claimLog: seq<ClaimEvent>)

  /** A challenge replayed: its audio, its device, the owner at that moment, and what had been observed. */
  datatype Replay = Replay(chunks: seq<Chunk>, challenger: DeviceId, owner: DeviceId, observations: seq<Observation>)

  /** `owners[g]` is the owner the route had in generation `g`; `held` restarts at every clear. */
  datatype LaneHistory = LaneHistory(
    owners: seq<DeviceId>,
    held: seq<Chunk>,
    observations: seq<Observation>,
    rebinds: seq<RebindRecord>,
    replays: seq<Replay>)

  datatype Lane = Lane(
    source: Source,
    route: Route,
    pendingAudio: seq<seq<Sample>>,
    challengeAudio: seq<Chunk>,
    challengeSamples: int,
    challengeDeviceId: DeviceId,
    vote: Option<Vote>,
    buffers: map<EntryId, Buffer>,
    ledger: A.Ledger,
    posted: seq<Audio>,
    history: LaneHistory)

  /** What a step on one lane reads and never changes. */
  datatype Env = Env(
    running: bool,
    now: Time,
    micOpen: bool,
    active: seq<Active>,
    users: map<DeviceId, User>,
    outputs: map<Source, DeviceId>,
    entries: map<EntryId, Entry>)

  /** What all lanes share: the channel of each device and the activity claims. */
  datatype Registry = Registry(
    nextChannel: Channel,
    channels: map<DeviceId, Channel>,
    claims: map<DeviceId, Claim>,
    claimLog: seq<ClaimEvent>)

  datatype Desk = Desk(registry: Registry, lane: Lane)

  datatype State = State(env: Env, registry: Registry, lanes: map<Source, Lane>, order: seq<Source>)

  const INITIAL := State(
    Env(false, 0.0, false, [], map[], map[], map[]),
    Registry(1, map[], map[], []), map[], [])

  // ---- Small updates ----

  function Confirm(reg: Registry, src: Source, deviceId: DeviceId, now: Time): Registry {
    reg.(claims := reg.claims[deviceId := Claim(src, now)],
         claimLog := reg.claimLog + [Confirmed(src, deviceId, now)])
  }

  function DropClaim(reg: Registry, src: Source, deviceId: DeviceId): Registry {
    reg.(claims := if deviceId in reg.claims && reg.claims[deviceId].source == src
                   then reg.claims - {deviceId} else reg.claims,
         claimLog := reg.claimLog + [Lost(src, deviceId)])
  }

  function CanonicalDevice(users: map<DeviceId, User>, deviceId: DeviceId): DeviceId {
    if deviceId in users && users[deviceId].parentDeviceId != NO_DEVICE
    then users[deviceId].parentDeviceId else deviceId
  }

  predicate Live(env: Env, e: EntryId) {
    e in env.entries && !env.entries[e].released
  }

  predicate LiveTap(env: Env, e: EntryId) {
    Live(env, e) && env.entries[e].path == A.Encoded
  }

  function TappedReceivers(env: Env): set<Receiver> {
    set e | e in env.entries && LiveTap(env, e) :: env.entries[e].receiver
  }

  // ---- Challenge buffer ----

  function ClearChallenge(lane: Lane): Lane {
    lane.(challengeAudio := [], challengeSamples := 0, challengeDeviceId := NO_DEVICE,
          history := lane.history.(held := []))
  }

  function TrimChallenge(audio: seq<Chunk>, total: int): (seq<Chunk>, int) {
    if total > CHALLENGE_SAMPLES && |audio| > 1 then TrimChallenge(audio[1..], total - |audio[0].samples|)
    else (audio, total)
  }

  function HoldPcm(lane: Lane, e: EntryId, samples: seq<real>): Lane {
    var chunk := Chunk(e, samples);
    var (audio, total) := TrimChallenge(lane.challengeAudio + [chunk], lane.challengeSamples + |samples|);
    lane.(challengeAudio := audio, challengeSamples := total,
          history := lane.history.(held := lane.history.held + [chunk]))
  }

  // ---- Publishing ----

  function OnChannel(pending: seq<seq<Sample>>, channel: Channel): seq<Audio> {
    seq(|pending|, i requires 0 <= i < |pending| => Audio(channel, pending[i]))
  }

  /** Releases waiting blocks once the owner is known. */
  function Announce(env: Env, lane: Lane): Lane {
    if !env.running || lane.route.deviceId == NO_DEVICE || lane.pendingAudio == [] then lane
    else lane.(pendingAudio := [], posted := lane.posted + OnChannel(lane.pendingAudio, lane.route.channel))
  }

  function ResetPcm(env: Env, lane: Lane): Lane {
    lane.(buffers := map e | e in lane.buffers && !Live(env, e) :: lane.buffers[e],
          ledger := A.Forget(lane.ledger, TappedReceivers(env)))
  }

  /** What an accepted native block deletes: the tap's buffer, and its own after an encoded spell. */
  predicate DroppedByNative(env: Env, lane: Lane, receiver: Receiver, e: EntryId, other: EntryId) {
    || (other == e && A.CanPublish(lane.ledger, receiver))
    || (LiveTap(env, other) && env.entries[other].receiver == receiver)
  }

  function PutFrame(lane: Lane, block: seq<Sample>): Lane {
    if lane.route.deviceId == NO_DEVICE then
      var pending := lane.pendingAudio + [block];
      lane.(pendingAudio := if |pending| > PENDING_FRAMES then pending[1..] else pending)
    else lane.(posted := lane.posted + [Audio(lane.route.channel, block)])
  }

  function AcceptBlock(env: Env, lane: Lane, entry: Entry, e: EntryId): Lane {
    lane.(
      ledger := A.Accept(lane.ledger, entry.receiver, entry.path, env.now),
      buffers := if entry.path == A.Encoded then lane.buffers
                 else map k | k in lane.buffers && !DroppedByNative(env, lane, entry.receiver, e, k) :: lane.buffers[k])
  }

  function OnTrackPcm(env: Env, lane: Lane, entry: Entry, e: EntryId, block: seq<Sample>): Lane {
    if lane.route.channel == MIC_CHANNEL && !env.micOpen then lane
    else if !A.Claimable(lane.ledger, entry.receiver, entry.path, env.now) then lane
    else PutFrame(Announce(env, AcceptBlock(env, lane, entry, e)), block)
  }

  function Levels(block: seq<Sample>): seq<real> {
    seq(|block|, i requires 0 <= i < |block| => block[i].level)
  }

  function OnBlock(env: Env, lane: Lane, entry: Entry, e: EntryId, block: seq<Sample>): Lane {
    if Peak(Levels(block)) >= PEAK_THRESHOLD && !entry.released then OnTrackPcm(env, lane, entry, e, block)
    else lane
  }

  function OnBlocks(env: Env, lane: Lane, entry: Entry, e: EntryId, blocks: seq<seq<Sample>>): Lane
    decreases |blocks|
  {
    if blocks == [] then lane
    else OnBlocks(env, OnBlock(env, lane, entry, e, blocks[0]), entry, e, blocks[1..])
  }

  function Stamp(samples: seq<real>, generation: nat): seq<Sample> {
    seq(|samples|, i requires 0 <= i < |samples| => Sample(samples[i], generation))
  }

  function BufferOf(lane: Lane, e: EntryId): Buffer {
    if e in lane.buffers then lane.buffers[e] else []
  }

  /** Frames a chunk; a buffer deleted on the way keeps nothing of the rest. */
  function PushPcm(env: Env, lane: Lane, e: EntryId, samples: seq<real>): Lane {
    if !env.running || e !in env.entries then lane
    else
      var stream := BufferOf(lane, e) + Stamp(samples, lane.route.generation);
      var present := lane.(buffers := lane.buffers[e := BufferOf(lane, e)]);
      var framed := OnBlocks(env, present, env.entries[e], e, Blocks(stream));
      if e in framed.buffers then framed.(buffers := framed.buffers[e := Residue(stream)]) else framed
  }

  function PushChunks(env: Env, lane: Lane, chunks: seq<Chunk>): Lane
    decreases |chunks|
  {
    if chunks == [] then lane
    else PushChunks(env, PushPcm(env, lane, chunks[0].entry, chunks[0].samples), chunks[1..])
  }

  function Recorded(lane: Lane): Lane {
    var replay := Replay(lane.challengeAudio, lane.challengeDeviceId, lane.route.deviceId, lane.history.observations);
    lane.(history := lane.history.(replays := lane.history.replays + [replay]))
  }

  function Replayed(lane: Lane): Lane {
    ClearChallenge(Recorded(lane))
  }

  function FlushChallenge(env: Env, lane: Lane): Lane {
    PushChunks(env, Replayed(lane), lane.challengeAudio)
  }

  // ---- Ownership ----

  predicate OwnedByOther(channels: map<DeviceId, Channel>, channel: Channel, deviceId: DeviceId) {
    exists d | d in channels :: d != deviceId && channels[d] == channel
  }

  /** A new participant gets a channel of its own unless the route's was never anyone's. */
  predicate NeedsChannel(reg: Registry, route: Route, next: DeviceId) {
    && next != NO_DEVICE && next !in reg.channels
    && (route.deviceId != NO_DEVICE || OwnedByOther(reg.channels, route.channel, next))
  }

  function ChannelFor(reg: Registry, route: Route, next: DeviceId): Channel {
    if next == NO_DEVICE then route.channel
    else if next in reg.channels then reg.channels[next]
    else if NeedsChannel(reg, route, next) then reg.nextChannel
    else route.channel
  }

  /** The channel of a participant stays the one it first owned. */
  function RegisterChannel(reg: Registry, route: Route, next: DeviceId): Registry {
    if next == NO_DEVICE || next in reg.channels then reg
    else
      reg.(channels := reg.channels[next := ChannelFor(reg, route, next)],
           nextChannel := if NeedsChannel(reg, route, next) then reg.nextChannel + 1 else reg.nextChannel)
  }

  function AssignDevice(env: Env, desk: Desk, next: DeviceId): Desk {
    var lane := desk.lane;
    var route := lane.route;
    if next == route.deviceId then desk
    else
      Desk(
        RegisterChannel(DropClaim(desk.registry, lane.source, route.deviceId), route, next),
        ResetPcm(env, lane.(
          route := route.(deviceId := next, channel := ChannelFor(desk.registry, route, next),
                          generation := route.generation + 1),
          history := lane.history.(owners := lane.history.owners + [next]))))
  }

  /** The fields of a route that follow the protocol, before its owner does. */
  function ReadProtocol(env: Env, lane: Lane): Route {
    var known := lane.source in env.outputs;
    var raw := if known then env.outputs[lane.source] else NO_DEVICE;
    lane.route.(
      protocolRawDeviceId := raw,
      protocolDeviceId := CanonicalDevice(env.users, raw),
      protocolStale := !known && (lane.route.protocolStale || lane.route.protocolRawDeviceId != NO_DEVICE))
  }

  function Resolve(route: Route): RouteIdentity {
    ResolveRouteIdentity(route.protocolRawDeviceId, route.protocolDeviceId, route.deviceId,
      route.activityDeviceId, route.overriddenProtocolRawDeviceId, route.protocolStale)
  }

  predicate ConfirmsChallenge(lane: Lane, deviceId: DeviceId) {
    deviceId != NO_DEVICE && deviceId == lane.challengeDeviceId && lane.challengeAudio != []
  }

  /** The lane with the resolved protocol fields, and without a challenge the new owner ends. */
  function Resolved(lane: Lane, read: Route): Lane {
    var resolved := Resolve(read);
    var updated := lane.(route := read.(
      activityDeviceId := resolved.activityDeviceId,
      overriddenProtocolRawDeviceId := resolved.overriddenProtocolRawDeviceId));
    if resolved.deviceId != read.deviceId && !ConfirmsChallenge(lane, resolved.deviceId)
    then ClearChallenge(updated) else updated
  }

  function UpdateRoute(env: Env, desk: Desk): Desk {
    var read := ReadProtocol(env, desk.lane);
    var deviceId := Resolve(read).deviceId;
    var confirms := ConfirmsChallenge(desk.lane, deviceId);
    var moved := AssignDevice(env, Desk(desk.registry, Resolved(desk.lane, read)), deviceId);
    var announced := Announce(env, moved.lane);
    if confirms then
      Desk(Confirm(moved.registry, desk.lane.source, deviceId, env.now),
           FlushChallenge(env, announced.(vote := None)))
    else Desk(moved.registry, announced)
  }

  function NewLane(src: Source, route: Route): Lane {
    Lane(src, route, [], [], 0, NO_DEVICE, None, map[], A.EMPTY_LEDGER, [],
         LaneHistory([route.deviceId], [], [], [], []))
  }

  function CreateRoute(env: Env, reg: Registry, src: Source): Desk {
    var raw := if src in env.outputs then env.outputs[src] else NO_DEVICE;
    var deviceId := CanonicalDevice(env.users, raw);
    var known := deviceId != NO_DEVICE && deviceId in reg.channels;
    var channel := if known then reg.channels[deviceId] else reg.nextChannel;
    Desk(
      reg.(nextChannel := if known then reg.nextChannel else reg.nextChannel + 1,
           channels := if deviceId != NO_DEVICE then reg.channels[deviceId := channel] else reg.channels),
      NewLane(src, Route(deviceId, raw, deviceId, NO_DEVICE, NO_DEVICE, false, 0, channel)))
  }

  // ---- Correlation with the active speaker ----

  predicate Eligible(users: map<DeviceId, User>, person: Active) {
    var id := CanonicalDevice(users, person.id);
    id != NO_DEVICE && !person.isSelf && !(id in users && users[id].isCurrentUser)
  }

  function Candidates(users: map<DeviceId, User>, active: seq<Active>): set<DeviceId> {
    set i | 0 <= i < |active| && Eligible(users, active[i]) :: CanonicalDevice(users, active[i].id)
  }

  function TheOnly(candidates: set<DeviceId>): (sole: Option<DeviceId>)
    ensures sole.Some? <==> |candidates| == 1
    ensures sole.Some? ==> candidates == {sole.value}
  {
    if |candidates| != 1 then None
    else
      assert candidates != {};
      SingletonMember(candidates);
      var d :| d in candidates;
      Some(d)
  }

  lemma SingletonMember(candidates: set<DeviceId>)
    requires |candidates| == 1
    ensures forall d, e | d in candidates && e in candidates :: d == e
    ensures forall d | d in candidates :: candidates == {d}
  {
    forall d | d in candidates ensures candidates == {d} {
      assert |candidates - {d}| == 0;
    }
  }

  function Observe(env: Env, lane: Lane, sole: Option<DeviceId>, loud: bool): Lane {
    lane.(history := lane.history.(observations :=
      lane.history.observations + [Observation(env.now, sole, loud, lane.route.deviceId)]))
  }

  function ForgetChallenge(lane: Lane): Lane {
    ClearChallenge(lane).(vote := None)
  }

  predicate ClaimedElsewhere(env: Env, reg: Registry, src: Source, deviceId: DeviceId) {
    && deviceId in reg.claims
    && env.now - reg.claims[deviceId].lastAt <= CLAIM_MS
    && reg.claims[deviceId].source != src
  }

  function ExpireClaim(env: Env, reg: Registry, deviceId: DeviceId): Registry {
    if deviceId in reg.claims && env.now - reg.claims[deviceId].lastAt > CLAIM_MS
    then reg.(claims := reg.claims - {deviceId}) else reg
  }

  function Correlate(env: Env, desk: Desk, peak: real, allowChallenge: bool): (Desk, Decision) {
    var sole := TheOnly(Candidates(env.users, env.active));
    var lane := Observe(env, desk.lane, sole, peak >= LOUD_PEAK);
    CorrelateWith(env, Desk(desk.registry, lane), sole, peak >= LOUD_PEAK, allowChallenge)
  }

  function CorrelateWith(env: Env, desk: Desk, sole: Option<DeviceId>, loud: bool, allowChallenge: bool): (Desk, Decision) {
    var reg, lane, route := desk.registry, desk.lane, desk.lane.route;
    var unnamed := route.deviceId == NO_DEVICE;
    var trusted := route.activityDeviceId != NO_DEVICE || !route.protocolStale;
    if sole.None? then
      (Desk(reg, ForgetChallenge(lane)), if trusted then Send else Drop)
    else if sole.value == route.deviceId then
      (Desk(if loud then Confirm(reg, lane.source, sole.value, env.now) else reg, ForgetChallenge(lane)), Send)
    else if !allowChallenge || (!unnamed && sole.value !in env.users) then
      (Desk(reg, ForgetChallenge(lane)), if unnamed || trusted then Send else Drop)
    else if ClaimedElsewhere(env, reg, lane.source, sole.value) then
      (Desk(reg, ForgetChallenge(lane)), if !unnamed && trusted then Send else Drop)
    else Challenge(env, Desk(ExpireClaim(env, reg, sole.value), lane), sole.value, loud)
  }

  function OpenChallenge(lane: Lane, candidate: DeviceId): Lane {
    ForgetChallenge(lane).(challengeDeviceId := candidate)
  }

  /** Audio that disagrees with the owner is held until the candidate is confirmed. */
  function Challenge(env: Env, desk: Desk, candidate: DeviceId, loud: bool): (Desk, Decision) {
    var lane := if desk.lane.challengeDeviceId != candidate then OpenChallenge(desk.lane, candidate) else desk.lane;
    var stale := lane.vote.Some? && !IdentityVoteFresh(lane.vote.value, env.now);
    if !loud then (Desk(desk.registry, if stale then OpenChallenge(lane, candidate) else lane), Hold)
    else
      var vote := NextIdentityVote(lane.vote, candidate, env.now);
      var voted := Desk(desk.registry, lane.(vote := Some(vote)));
      if !IdentityVoteReady(vote) then (voted, Hold) else (RebindRoute(env, voted, candidate), Rebind)
  }

  function RebindRoute(env: Env, desk: Desk, candidate: DeviceId): Desk {
    var lane := desk.lane;
    var record := RebindRecord(candidate, env.now, lane.history.observations, desk.registry.claimLog);
    var overriding := lane.(
      route := lane.route.(activityDeviceId := candidate,
                           overriddenProtocolRawDeviceId := lane.route.protocolRawDeviceId),
      history := lane.history.(rebinds := lane.history.rebinds + [record]));
    var moved := AssignDevice(env, Desk(desk.registry, overriding), candidate);
    Desk(Confirm(moved.registry, lane.source, candidate, env.now), Announce(env, moved.lane.(vote := None)))
  }

  function Follow(env: Env, lane: Lane, e: EntryId, samples: seq<real>, decision: Decision): Lane {
    match decision
    case Drop => lane
    case Hold => HoldPcm(lane, e, samples)
    case Send => PushPcm(env, lane, e, samples)
    case Rebind => PushPcm(env, FlushChallenge(env, lane), e, samples)
  }

  /** What both capture paths do with a decoded chunk of a route. */
  function Deliver(env: Env, desk: Desk, e: EntryId, samples: seq<real>, peak: real, allowChallenge: bool): Desk {
    var (correlated, decision) := Correlate(env, desk, peak, allowChallenge);
    Desk(correlated.registry, Follow(env, correlated.lane, e, samples, decision))
  }

  /** A frame on the encoded path decides who owns the source. */
  function ReceiveFrame(env: Env, lane: Lane, receiver: Receiver, audible: bool, candidate: bool, native: Option<EntryId>): Lane {
    var wasNative := A.StateOf(lane.ledger, receiver, env.now).owner == A.Native;
    var ledger := A.Decide(lane.ledger, receiver, audible, candidate, env.now);
    lane.(ledger := ledger,
          buffers := if candidate && wasNative && A.CanPublish(ledger, receiver) && native.Some?
                     then lane.buffers - {native.value} else lane.buffers)
  }

  // ---- Steps ----

  datatype Step =
    | Advance(to: Time)
    | SetMicOpen(open: bool)
    | SetActive(people: seq<Active>)
    | UsersChanged(known: map<DeviceId, User>)
    | OutputsChanged(current: map<Source, DeviceId>)
    | OtherChannel
    | Attach(id: EntryId, attached: Entry)
    | ReplaceReceiver(id: EntryId, receiver: Receiver)
    | Release(id: EntryId)
    | ResetDecoder(id: EntryId)
    | NativePcm(id: EntryId, source: Source, samples: seq<real>, peak: real, isSelf: bool)
    | EncodedFrame(id: EntryId, source: Source, level: Option<real>, candidate: bool, native: Option<EntryId>, isSelf: bool)
    | EncodedPcm(id: EntryId, source: Source, samples: seq<real>, peak: real, allowChallenge: bool)
    | Start
    | AnnounceAll
    | Halt
    | Cleanup

  predicate Routable(src: Source) {
    src != "" && src != VIDEO_SOURCE
  }

  /** What the surroundings guarantee of a step. */
  predicate Enabled(s: State, step: Step) {
    match step
    case Advance(to) => s.env.now <= to
    case UsersChanged(known) => NO_DEVICE !in known
    case Attach(id, attached) => id !in s.env.entries && !attached.released
    case ReplaceReceiver(id, _) => id in s.env.entries && s.env.entries[id].path == A.Native
    case Release(id) => Live(s.env, id)
    case ResetDecoder(id) => id in s.env.entries && s.env.entries[id].path == A.Encoded
    case NativePcm(id, _, _, _, _) => id in s.env.entries && s.env.entries[id].path == A.Native
    case EncodedFrame(id, _, _, _, _, _) => LiveTap(s.env, id)
    case EncodedPcm(id, source, _, _, _) =>
      id in s.env.entries && s.env.entries[id].path == A.Encoded && source in s.lanes
    case Start => !s.env.running
    case Cleanup => !s.env.running
    case _ => true
  }

  function Put(s: State, desk: Desk): State {
    s.(registry := desk.registry, lanes := s.lanes[desk.lane.source := desk.lane])
  }

  /** The route of a source, created or brought up to date. */
  function RouteForSource(s: State, src: Source): Desk {
    if src in s.lanes then
      var updated := UpdateRoute(s.env, Desk(s.registry, s.lanes[src]));
      Desk(updated.registry, Announce(s.env, updated.lane))
    else CreateRoute(s.env, s.registry, src)
  }

  function WithRoute(s: State, src: Source): State {
    var desk := RouteForSource(s, src);
    Put(if src in s.lanes then s else s.(order := s.order + [src]), desk)
  }

  /** Updates every route in the order the routes were created. */
  function UpdateRoutes(s: State, order: seq<Source>): State
    decreases |order|
  {
    if order == [] then s
    else
      UpdateRoutes(
        if order[0] in s.lanes then Put(s, UpdateRoute(s.env, Desk(s.registry, s.lanes[order[0]]))) else s,
        order[1..])
  }

  function WithoutBuffers(lane: Lane, dropped: set<EntryId>): Lane {
    lane.(buffers := lane.buffers - dropped)
  }

  function LiveEntries(env: Env): set<EntryId> {
    set e | e in env.entries && Live(env, e)
  }

  function LiveTaps(env: Env): set<EntryId> {
    set e | e in env.entries && LiveTap(env, e)
  }

  function ForgetEvidence(lane: Lane): Lane {
    lane.(vote := None, ledger := A.ForgetAll(lane.ledger))
  }

  function DropHeldAudio(lane: Lane): Lane {
    ClearChallenge(lane).(pendingAudio := [])
  }

  function WipeClaims(reg: Registry): Registry {
    reg.(claims := map[], claimLog := reg.claimLog + [Wiped])
  }

  function WithoutTap(lane: Lane, id: EntryId, receiver: Receiver): Lane {
    WithoutBuffers(lane, {id}).(ledger := A.ForgetReceiver(lane.ledger, receiver))
  }

  function ReleaseEntry(s: State, id: EntryId): State
    requires id in s.env.entries
  {
    var entry := s.env.entries[id];
    var released := s.(env := s.env.(entries := s.env.entries[id := entry.(released := true)]));
    if entry.path == A.Native then released
    else released.(lanes := map src | src in s.lanes :: WithoutTap(s.lanes[src], id, entry.receiver))
  }

  function ReceiveEncoded(s: State, id: EntryId, src: Source, level: Option<real>, candidate: bool,
                          native: Option<EntryId>, isSelf: bool): State
    requires id in s.env.entries
  {
    if !s.env.running || !Routable(src) then s
    else
      var s1 := WithRoute(s, src);
      if isSelf then s1
      else
        var audible := level.Some? && level.value >= A.AUDIBLE_LEVEL;
        Put(s1, Desk(s1.registry,
          ReceiveFrame(s.env, RouteForSource(s, src).lane, s.env.entries[id].receiver, audible, candidate, native)))
  }

  function ReceiveNative(s: State, id: EntryId, src: Source, samples: seq<real>, peak: real, isSelf: bool): State {
    if !s.env.running || !Routable(src) then s
    else
      var s1 := WithRoute(s, src);
      if isSelf then s1 else Put(s1, Deliver(s.env, RouteForSource(s, src), id, samples, peak, true))
  }

  function ReceiveDecoded(s: State, id: EntryId, src: Source, samples: seq<real>, peak: real, allowChallenge: bool): State
    requires id in s.env.entries && src in s.lanes
  {
    var entry := s.env.entries[id];
    if entry.released || !s.env.running || !A.CanPublish(s.lanes[src].ledger, entry.receiver) then s
    else Put(s, Deliver(s.env, Desk(s.registry, s.lanes[src]), id, samples, peak, allowChallenge))
  }

  function StartedLane(env: Env, lane: Lane): Lane {
    WithoutBuffers(ForgetEvidence(lane), LiveTaps(env))
  }

  function StartCapture(s: State): State {
    State(s.env.(running := true), WipeClaims(s.registry),
          map src | src in s.lanes :: StartedLane(s.env, s.lanes[src]), s.order)
  }

  function CleanedLane(env: Env, lane: Lane): Lane {
    WithoutBuffers(ForgetEvidence(DropHeldAudio(lane)), LiveEntries(env))
  }

  function CleanupCapture(s: State): State {
    s.(registry := WipeClaims(s.registry), lanes := map src | src in s.lanes :: CleanedLane(s.env, s.lanes[src]))
  }

  function Apply(s: State, step: Step): State {
    if !Enabled(s, step) then s else
    match step
    case Advance(to) => s.(env := s.env.(now := to))
    case SetMicOpen(open) => s.(env := s.env.(micOpen := open))
    case SetActive(people) => s.(env := s.env.(active := people))
    case UsersChanged(known) => UpdateRoutes(s.(env := s.env.(users := known)), s.order)
    case OutputsChanged(current) => UpdateRoutes(s.(env := s.env.(outputs := current)), s.order)
    case OtherChannel => s.(registry := s.registry.(nextChannel := s.registry.nextChannel + 1))
    case Attach(id, attached) => s.(env := s.env.(entries := s.env.entries[id := attached]))
    case ReplaceReceiver(id, receiver) =>
      s.(env := s.env.(entries := s.env.entries[id := s.env.entries[id].(receiver := receiver)]))
    case Release(id) => ReleaseEntry(s, id)
    case ResetDecoder(id) => s.(lanes := map src | src in s.lanes :: WithoutBuffers(s.lanes[src], {id}))
    case NativePcm(id, source, samples, peak, isSelf) => ReceiveNative(s, id, source, samples, peak, isSelf)
    case EncodedFrame(id, source, level, candidate, native, isSelf) =>
      ReceiveEncoded(s, id, source, level, candidate, native, isSelf)
    case EncodedPcm(id, source, samples, peak, allowChallenge) =>
      ReceiveDecoded(s, id, source, samples, peak, allowChallenge)
    case Start => StartCapture(s)
    case AnnounceAll => s.(lanes := map src | src in s.lanes :: Announce(s.env, s.lanes[src]))
    case Halt => s.(env := s.env.(running := false))
    case Cleanup => CleanupCapture(s)
  }

  function Run(s: State, steps: seq<Step>): State
    decreases |steps|
  {
    if steps == [] then s else Apply(Run(s, steps[..|steps| - 1]), steps[|steps| - 1])
  }
}
