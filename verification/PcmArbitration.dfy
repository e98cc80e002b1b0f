/**
 Arbitration between the two capture paths of one contributing source in
 `browser-extension/src/page-capture.js`: each receiver's choice between native and
 encoded PCM, and the lease on the source. A `Ledger` is what the two Maps hold for
 one source; its `log` is history that no operation reads.
 */
module PcmArbitration {
  import opened Wrappers

  type Receiver = nat
  type Time = real

  const NATIVE_STALL_MS: Time := 1500.0
  const ACTIVITY_GAP_MS: Time := 750.0
  const SOURCE_LEASE_MS: Time := 250.0
  const AUDIBLE_LEVEL: real := 0.01

  datatype Path = Native | Encoded

  /** `owners` is history: every owner the state has had, one entry for each operation on it. */
  datatype Arbitration = Arbitration(
    owner: Path,
    createdAt: Time,
    audibleSince: Option<Time>,
    lastAudibleAt: Option<Time>,
    lastNativePcmAt: Option<Time>,
    switches: nat,
    owners: seq<Path>)

  datatype Lease = Lease(owner: Receiver, path: Path, seenAt: Time)

  datatype Event =
    | Frame(receiver: Receiver, at: Time, audible: bool, candidate: bool)
    | Block(receiver: Receiver, at: Time, path: Path)
    | Forgotten(kept: set<Receiver>)
    | Released(receiver: Receiver)

  datatype Ledger = Ledger(
    states: map<Receiver, Arbitration>,
    lease: Option<Lease>,
    log: seq<Event>)

  const EMPTY_LEDGER := Ledger(map[], None, [])

  // ---- Operations ----

  function StateOf(l: Ledger, r: Receiver, now: Time): Arbitration {
    if r in l.states then l.states[r]
    else Arbitration(Native, now, None, None, None, 0, [Native])
  }

  function WithOwner(a: Arbitration, owner: Path): Arbitration {
    a.(owner := owner,
       switches := if a.owner == owner then a.switches else a.switches + 1,
       owners := a.owners + [owner])
  }

  function Max(a: Time, b: Time): Time {
    if a >= b then a else b
  }

  predicate Continuing(lastAudibleAt: Option<Time>, now: Time) {
    lastAudibleAt.Some? && lastAudibleAt.value <= now && now - lastAudibleAt.value <= ACTIVITY_GAP_MS
  }

  function HearFrame(a: Arbitration, audible: bool, now: Time): Arbitration {
    if audible then
      a.(audibleSince := if Continuing(a.lastAudibleAt, now) then a.audibleSince else Some(now),
         lastAudibleAt := Some(now))
    else if Continuing(a.lastAudibleAt, now) then a
    else a.(audibleSince := None)
  }

  /** The last moment the native path made progress, or its chance to begin. */
  function ProgressAt(a: Arbitration): Time {
    var from := a.audibleSince.GetOr(a.createdAt);
    if a.lastNativePcmAt.Some? then Max(a.lastNativePcmAt.value, from) else from
  }

  predicate Stalled(a: Arbitration, now: Time) {
    ProgressAt(a) <= now && now - ProgressAt(a) >= NATIVE_STALL_MS
  }

  function Decided(a: Arbitration, audible: bool, candidate: bool, now: Time): Arbitration {
    if !candidate then WithOwner(a, Encoded)
    else
      var heard := HearFrame(a, audible, now);
      if heard.owner == Native && audible && Stalled(heard, now) then WithOwner(heard, Encoded)
      else WithOwner(heard, heard.owner)
  }

  /** An encoded frame arrives; afterwards `CanPublish` tells who owns the source. */
  function Decide(l: Ledger, r: Receiver, audible: bool, candidate: bool, now: Time): Ledger {
    l.(states := l.states[r := Decided(StateOf(l, r, now), audible, candidate, now)],
       log := l.log + [Frame(r, now, audible, candidate)])
  }

  predicate CanPublish(l: Ledger, r: Receiver) {
    r in l.states && l.states[r].owner == Encoded
  }

  /** A native block was accepted; it always takes the source back. */
  function PreferNative(l: Ledger, r: Receiver, now: Time): Ledger {
    l.(states := l.states[r := WithOwner(StateOf(l, r, now), Native).(lastNativePcmAt := Some(now))])
  }

  predicate Claimable(l: Ledger, r: Receiver, path: Path, now: Time) {
    l.lease.Some? ==>
      var previous := l.lease.value;
      || (previous.owner == r && previous.path == path)
      || !(previous.seenAt <= now && now - previous.seenAt <= SOURCE_LEASE_MS)
      || (path == Native && previous.path == Encoded)
  }

  function Claim(l: Ledger, r: Receiver, path: Path, now: Time): Ledger {
    l.(lease := Some(Lease(r, path, now)), log := l.log + [Block(r, now, path)])
  }

  /** One framed block asks for its source: an accepted native block also ends encoded ownership. */
  function Accept(l: Ledger, r: Receiver, path: Path, now: Time): Ledger {
    var claimed := Claim(l, r, path, now);
    if path == Native then PreferNative(claimed, r, now) else claimed
  }

  function Forget(l: Ledger, tapped: set<Receiver>): Ledger {
    l.(states := map k | k in l.states && k !in tapped :: l.states[k],
       lease := None,
       log := l.log + [Forgotten(l.states.Keys - tapped)])
  }

  function ForgetReceiver(l: Ledger, r: Receiver): Ledger {
    l.(states := map k | k in l.states && k != r :: l.states[k],
       log := l.log + [Released(r)])
  }

  function ForgetAll(l: Ledger): Ledger {
    Ledger(map[], None, l.log + [Forgotten({})])
  }

  // ---- What the log must show ----

  predicate IsNativeBlock(e: Event, r: Receiver) {
    e.Block? && e.receiver == r && e.path == Native
  }

  /** The position just behind the last accepted native block, or 0. */
  function NativeCut(log: seq<Event>, r: Receiver): (cut: nat)
    ensures cut <= |log|
    ensures cut > 0 ==> IsNativeBlock(log[cut - 1], r)
    ensures forall i | cut <= i < |log| :: !IsNativeBlock(log[i], r)
  {
    if log == [] then 0
    else if IsNativeBlock(log[|log| - 1], r) then |log|
    else NativeCut(log[..|log| - 1], r)
  }

  /** At instant `x` the receiver had heard an audible encoded frame at most 750 ms before. */
  predicate Carries(e: Event, r: Receiver, x: Time) {
    e.Frame? && e.receiver == r && e.audible && e.at <= x <= e.at + ACTIVITY_GAP_MS
  }

  predicate CarriedAt(log: seq<Event>, r: Receiver, x: Time) {
    exists i :: 0 <= i < |log| && Carries(log[i], r, x)
  }

  ghost predicate Covers(log: seq<Event>, r: Receiver, from: Time, to: Time) {
    forall x: Time :: from <= x <= to ==> CarriedAt(log, r, x)
  }

  predicate IsFrameOf(e: Event, r: Receiver) {
    e.Frame? && e.receiver == r
  }

  /**
   From `from` on, at or after the last accepted native block, the encoded lane was audible
   without a gap for the whole stall time, up to an encoded frame received since that block.
   */
  ghost predicate StallFrom(log: seq<Event>, r: Receiver, from: Time) {
    var cut := NativeCut(log, r);
    && (cut > 0 ==> log[cut - 1].at <= from)
    && Covers(log, r, from, from + NATIVE_STALL_MS)
    && exists k :: cut <= k < |log| && IsFrameOf(log[k], r) && log[k].at >= from + NATIVE_STALL_MS
  }

  /** Since the last native block, some frame found the receiver to be no native candidate. */
  ghost predicate LeftCandidacy(log: seq<Event>, r: Receiver) {
    exists k :: NativeCut(log, r) <= k < |log| && IsFrameOf(log[k], r) && !log[k].candidate
  }

  /** Why an encoded block of this receiver may be accepted now. */
  ghost predicate Justified(log: seq<Event>, r: Receiver) {
    LeftCandidacy(log, r) || exists from :: StallFrom(log, r, from)
  }

  predicate Timed(e: Event) {
    e.Frame? || e.Block?
  }

  /** The log is in the order of a clock that now reads `now`. */
  predicate TimedBy(log: seq<Event>, now: Time) {
    forall i, j | 0 <= i <= j < |log| && Timed(log[i]) && Timed(log[j]) :: log[i].at <= log[j].at <= now
  }

  /** Every accepted encoded block was justified by the log before it. */
  ghost predicate EncodedBlocksJustified(log: seq<Event>) {
    forall i | 0 <= i < |log| && log[i].Block? && log[i].path == Encoded ::
      Justified(log[..i], log[i].receiver)
  }

  /** The block holding the lease: the last one since the source was last forgotten. */
  function Holder(log: seq<Event>): (h: Option<nat>)
    ensures h.Some? ==> h.value < |log| && log[h.value].Block?
  {
    if log == [] then None
    else
      var e := log[|log| - 1];
      if e.Block? then Some(|log| - 1)
      else if e.Forgotten? then None
      else Holder(log[..|log| - 1])
  }

  /** `next` may follow `previous` as the next accepted block of their source. */
  predicate MayFollow(previous: Event, next: Event)
    requires previous.Block? && next.Block?
  {
    || (previous.receiver == next.receiver && previous.path == next.path)
    || next.at - previous.at > SOURCE_LEASE_MS
    || (next.path == Native && previous.path == Encoded)
  }

  predicate Spaced(log: seq<Event>, i: nat)
    requires i < |log|
  {
    log[i].Block? ==>
      var holder := Holder(log[..i]);
      holder.Some? ==> MayFollow(log[holder.value], log[i])
  }

  predicate BlocksSpaced(log: seq<Event>) {
    forall i | 0 <= i < |log| :: Spaced(log, i)
  }

  function Changes(owners: seq<Path>): nat {
    if |owners| < 2 then 0
    else Changes(owners[..|owners| - 1]) +
         if owners[|owners| - 1] == owners[|owners| - 2] then 0 else 1
  }

  // ---- Invariant ----

  ghost predicate AudibleRunOk(log: seq<Event>, r: Receiver, a: Arbitration, now: Time) {
    && a.createdAt <= now
    && (a.lastAudibleAt.Some? ==>
          && a.lastAudibleAt.value <= now
          && CarriedAt(log, r, a.lastAudibleAt.value)
          && Covers(log, r, a.lastAudibleAt.value, a.lastAudibleAt.value + ACTIVITY_GAP_MS)
          && (a.audibleSince.Some? || now - a.lastAudibleAt.value > ACTIVITY_GAP_MS))
    && (a.audibleSince.Some? ==>
          && a.lastAudibleAt.Some?
          && a.createdAt <= a.audibleSince.value <= a.lastAudibleAt.value
          && Covers(log, r, a.audibleSince.value, a.lastAudibleAt.value))
  }

  ghost predicate OwnershipOk(log: seq<Event>, r: Receiver, a: Arbitration) {
    && (a.owner == Encoded ==> Justified(log, r))
    && (a.owner == Native && NativeCut(log, r) > 0 ==>
          log[NativeCut(log, r) - 1].at <= Max(a.createdAt, a.lastNativePcmAt.GetOr(a.createdAt)))
    && |a.owners| > 0 && a.owners[0] == Native && a.owners[|a.owners| - 1] == a.owner
    && a.switches == Changes(a.owners)
  }

  ghost predicate LeaseOk(l: Ledger) {
    match Holder(l.log)
    case None => l.lease.None?
    case Some(i) => l.lease == Some(Lease(l.log[i].receiver, l.log[i].path, l.log[i].at))
  }

  ghost predicate LedgerOk(l: Ledger, now: Time) {
    && TimedBy(l.log, now)
    && EncodedBlocksJustified(l.log)
    && BlocksSpaced(l.log)
    && LeaseOk(l)
    && (forall k | k in l.states ::
          && AudibleRunOk(l.log, k, l.states[k], now)
          && OwnershipOk(l.log, k, l.states[k]))
    && (forall r :: TracksOk(l, r))
  }

  /** The state is exactly what its episode of the log says. */
  predicate Tracks(ep: seq<Event>, r: Receiver, a: Arbitration) {
    && a.lastNativePcmAt == NativeAt(ep, r)
    && a.lastAudibleAt == HeardAt(ep, r)
    && (a.audibleSince.Some? ==> a.audibleSince == RunStartAt(ep, r))
    && (a.owner == Encoded <==> HandedOver(ep, r))
  }

  predicate TracksOk(l: Ledger, r: Receiver) {
    var ep := Episode(l.log, r);
    if r in l.states then Tracks(ep, r, l.states[r])
    else forall e | e in ep :: !IsFrameOf(e, r) && !IsNativeBlock(e, r)
  }

  // ---- Growth of the log ----

  lemma CarriedGrows(log: seq<Event>, e: Event, r: Receiver, x: Time)
    ensures CarriedAt(log, r, x) ==> CarriedAt(log + [e], r, x)
    ensures Carries(e, r, x) ==> CarriedAt(log + [e], r, x)
  {
    if CarriedAt(log, r, x) {
      var i :| 0 <= i < |log| && Carries(log[i], r, x);
      assert (log + [e])[i] == log[i];
    }
    assert (log + [e])[|log|] == e;
  }

  lemma CoversGrows(log: seq<Event>, e: Event, r: Receiver, from: Time, to: Time)
    requires Covers(log, r, from, to)
    ensures Covers(log + [e], r, from, to)
  {
    forall x: Time | from <= x <= to ensures CarriedAt(log + [e], r, x) {
      CarriedGrows(log, e, r, x);
    }
  }

  lemma CutGrows(log: seq<Event>, e: Event, r: Receiver)
    ensures NativeCut(log + [e], r) == if IsNativeBlock(e, r) then |log| + 1 else NativeCut(log, r)
  {
    assert (log + [e])[..|log|] == log;
  }

  lemma JustifiedGrows(log: seq<Event>, e: Event, r: Receiver)
    requires Justified(log, r) && !IsNativeBlock(e, r)
    ensures Justified(log + [e], r)
  {
    CutGrows(log, e, r);
    var longer := log + [e];
    var cut := NativeCut(log, r);
    if LeftCandidacy(log, r) {
      var k :| cut <= k < |log| && IsFrameOf(log[k], r) && !log[k].candidate;
      assert IsFrameOf(longer[k], r) && !longer[k].candidate;
      assert LeftCandidacy(longer, r);
    } else {
      var from :| StallFrom(log, r, from);
      CoversGrows(log, e, r, from, from + NATIVE_STALL_MS);
      var k :| cut <= k < |log| && IsFrameOf(log[k], r) && log[k].at >= from + NATIVE_STALL_MS;
      assert IsFrameOf(longer[k], r);
      assert StallFrom(longer, r, from);
    }
  }

  lemma HolderGrows(log: seq<Event>, e: Event)
    ensures Holder(log + [e]) ==
            if e.Block? then Some(|log|)
            else if e.Forgotten? then None else Holder(log)
  {
    assert (log + [e])[..|log|] == log;
  }

  /** What a new entry must satisfy for the log to stay well-formed. */
  lemma LogStaysOk(log: seq<Event>, e: Event, now: Time)
    requires TimedBy(log, now) && EncodedBlocksJustified(log) && BlocksSpaced(log)
    requires Timed(e) ==> e.at == now
    requires e.Block? && e.path == Encoded ==> Justified(log, e.receiver)
    requires e.Block? ==>
               Holder(log).None? || MayFollow(log[Holder(log).value], e)
    ensures TimedBy(log + [e], now) && EncodedBlocksJustified(log + [e]) && BlocksSpaced(log + [e])
  {
    var longer := log + [e];
    assert longer[..|log|] == log;
    forall i | 0 <= i < |longer|
      ensures Spaced(longer, i)
      ensures longer[i].Block? && longer[i].path == Encoded ==>
                Justified(longer[..i], longer[i].receiver)
    {
      if i < |log| {
        assert longer[..i] == log[..i] && Spaced(log, i);
      }
    }
  }

  lemma StateStaysOk(log: seq<Event>, e: Event, r: Receiver, a: Arbitration, now: Time)
    requires AudibleRunOk(log, r, a, now)
    requires OwnershipOk(log, r, a)
    requires !IsNativeBlock(e, r)
    ensures AudibleRunOk(log + [e], r, a, now)
    ensures OwnershipOk(log + [e], r, a)
  {
    CutGrows(log, e, r);
    if a.owner == Encoded {
      JustifiedGrows(log, e, r);
    }
    AudibleRunGrows(log, e, r, a, now);
  }

  lemma AudibleRunGrows(log: seq<Event>, e: Event, r: Receiver, a: Arbitration, now: Time)
    requires AudibleRunOk(log, r, a, now)
    ensures AudibleRunOk(log + [e], r, a, now)
  {
    if a.lastAudibleAt.Some? {
      CarriedGrows(log, e, r, a.lastAudibleAt.value);
      CoversGrows(log, e, r, a.lastAudibleAt.value, a.lastAudibleAt.value + ACTIVITY_GAP_MS);
    }
    if a.audibleSince.Some? {
      CoversGrows(log, e, r, a.audibleSince.value, a.lastAudibleAt.value);
    }
  }

  // ---- When a source is handed over, read off the log ----

  /** The state of the receiver is dropped: with the owner of the source, at a start or stop, or with its tap. */
  predicate Drops(e: Event, r: Receiver) {
    (e.Forgotten? && r !in e.kept) || (e.Released? && e.receiver == r)
  }

  /** What was logged since the state of the receiver was last dropped. */
  function Episode(log: seq<Event>, r: Receiver): (ep: seq<Event>)
    ensures |ep| <= |log| && ep == log[|log| - |ep|..]
  {
    if log == [] || Drops(log[|log| - 1], r) then [] else Episode(log[..|log| - 1], r) + [log[|log| - 1]]
  }

  /** An audible frame that counts: of a native candidate. */
  predicate Heard(e: Event, r: Receiver) {
    IsFrameOf(e, r) && e.candidate && e.audible
  }

  /** Within 750 ms of `j`, and by `k`, the receiver was heard again. */
  predicate HeardAgain(ep: seq<Event>, r: Receiver, j: nat, k: nat)
    requires j < k < |ep| && Heard(ep[j], r)
  {
    exists m | j < m <= k && Heard(ep[m], r) :: ep[m].at - ep[j].at <= ACTIVITY_GAP_MS
  }

  /** From `i` to `k` the receiver was heard without a gap. */
  predicate GapFree(ep: seq<Event>, r: Receiver, i: nat, k: nat) {
    && i <= k < |ep| && Heard(ep[i], r) && Heard(ep[k], r)
    && forall j {:trigger HeardAgain(ep, r, j, k)} | i <= j < k && Heard(ep[j], r) :: HeardAgain(ep, r, j, k)
  }

  /** The frame `k` ends 1500 ms of being heard without a gap, and no native block came in this time. */
  predicate StallsAt(ep: seq<Event>, r: Receiver, k: nat)
    requires k < |ep| && IsFrameOf(ep[k], r)
  {
    var cut := NativeCut(ep[..k], r);
    && (exists i | 0 <= i <= k && GapFree(ep, r, i, k) :: ep[k].at - ep[i].at >= NATIVE_STALL_MS)
    && (cut > 0 ==> ep[k].at - ep[cut - 1].at >= NATIVE_STALL_MS)
  }

  /** Since the last native block, a frame of no native candidate came, or one that ends a stall. */
  predicate HandedOver(ep: seq<Event>, r: Receiver) {
    exists k | NativeCut(ep, r) <= k < |ep| && IsFrameOf(ep[k], r) :: !ep[k].candidate || StallsAt(ep, r, k)
  }

  // ---- The audible run, as the state keeps it ----

  function LastHeard(ep: seq<Event>, r: Receiver): (m: Option<nat>)
    ensures m.Some? ==> m.value < |ep| && Heard(ep[m.value], r) && forall j | m.value < j < |ep| :: !Heard(ep[j], r)
    ensures m.None? ==> forall j | 0 <= j < |ep| :: !Heard(ep[j], r)
  {
    if ep == [] then None
    else if Heard(ep[|ep| - 1], r) then Some(|ep| - 1) else LastHeard(ep[..|ep| - 1], r)
  }

  /** Where the run that the last frame heard belongs to began. */
  function RunStart(ep: seq<Event>, r: Receiver): (s: Option<nat>)
    ensures s.Some? <==> LastHeard(ep, r).Some?
    ensures s.Some? ==> s.value <= LastHeard(ep, r).value && Heard(ep[s.value], r)
  {
    if ep == [] then None
    else
      var front, last := ep[..|ep| - 1], ep[|ep| - 1];
      if !Heard(last, r) then RunStart(front, r)
      else if LastHeard(front, r).Some? && last.at - front[LastHeard(front, r).value].at <= ACTIVITY_GAP_MS then RunStart(front, r)
      else Some(|ep| - 1)
  }

  function HeardAt(ep: seq<Event>, r: Receiver): Option<Time> {
    if LastHeard(ep, r).Some? then Some(ep[LastHeard(ep, r).value].at) else None
  }

  function RunStartAt(ep: seq<Event>, r: Receiver): Option<Time> {
    if RunStart(ep, r).Some? then Some(ep[RunStart(ep, r).value].at) else None
  }

  function NativeAt(ep: seq<Event>, r: Receiver): Option<Time> {
    if NativeCut(ep, r) > 0 then Some(ep[NativeCut(ep, r) - 1].at) else None
  }

  /** A run without a gap goes on with one more frame heard in time. */
  lemma GapFreeGoesOn(ep: seq<Event>, r: Receiver, i: nat, m: nat, e: Event)
    requires GapFree(ep, r, i, m) && Heard(e, r) && e.at - ep[m].at <= ACTIVITY_GAP_MS
    requires forall j | m < j < |ep| :: !Heard(ep[j], r)
    ensures GapFree(ep + [e], r, i, |ep|)
  {
    var longer := ep + [e];
    forall j | i <= j < |ep| && Heard(longer[j], r) ensures HeardAgain(longer, r, j, |ep|) {
      if j < m {
        assert HeardAgain(ep, r, j, m);
        var n :| j < n <= m && Heard(ep[n], r) && ep[n].at - ep[j].at <= ACTIVITY_GAP_MS;
        assert longer[n] == ep[n];
      } else {
        assert longer[|ep|] == e;
      }
    }
  }

  /** A run that ends with a new frame ended before with the last one heard, in time, or begins with it. */
  lemma GapFreeWentOn(ep: seq<Event>, r: Receiver, i: nat, e: Event, now: Time)
    requires GapFree(ep + [e], r, i, |ep|) && TimedBy(ep + [e], now) && i < |ep|
    ensures LastHeard(ep, r).Some?
    ensures e.at - ep[LastHeard(ep, r).value].at <= ACTIVITY_GAP_MS
    ensures GapFree(ep, r, i, LastHeard(ep, r).value)
  {
    var longer := ep + [e];
    assert longer[i] == ep[i];
    var m := LastHeard(ep, r).value;
    assert longer[m] == ep[m] && longer[|ep|] == e;
    assert HeardAgain(longer, r, m, |ep|);
    forall j | i <= j < m && Heard(ep[j], r) ensures HeardAgain(ep, r, j, m) {
      assert longer[j] == ep[j] && HeardAgain(longer, r, j, |ep|);
      var n :| j < n <= |ep| && Heard(longer[n], r) && longer[n].at - longer[j].at <= ACTIVITY_GAP_MS;
      if n < |ep| {
        assert longer[n] == ep[n];
      } else {
        assert ep[m].at <= e.at;
      }
    }
  }

  /** What is said of a run does not depend on what came later. */
  lemma GapFreeAgrees(ep: seq<Event>, other: seq<Event>, r: Receiver, i: nat, k: nat)
    requires k < |ep| && k < |other| && (forall j | 0 <= j <= k :: other[j] == ep[j]) && GapFree(ep, r, i, k)
    ensures GapFree(other, r, i, k)
  {
    forall j | i <= j < k && Heard(other[j], r) ensures HeardAgain(other, r, j, k) {
      assert HeardAgain(ep, r, j, k);
      var m :| j < m <= k && Heard(ep[m], r) && ep[m].at - ep[j].at <= ACTIVITY_GAP_MS;
      assert other[m] == ep[m];
    }
  }

  /** `s` begins the run without a gap up to `m`, and no earlier entry does. */
  ghost predicate BeginsRun(ep: seq<Event>, r: Receiver, s: nat, m: nat) {
    GapFree(ep, r, s, m) && forall i: nat | GapFree(ep, r, i, m) :: ep[s].at <= ep[i].at
  }

  lemma BeginsRunGrows(ep: seq<Event>, r: Receiver, s: nat, m: nat, e: Event)
    requires BeginsRun(ep, r, s, m)
    ensures BeginsRun(ep + [e], r, s, m)
  {
    GapFreeAgrees(ep, ep + [e], r, s, m);
    forall i: nat | GapFree(ep + [e], r, i, m) ensures (ep + [e])[s].at <= (ep + [e])[i].at {
      GapFreeAgrees(ep + [e], ep, r, i, m);
    }
  }

  /** One more frame heard in time goes on with the run. */
  lemma RunGoesOn(ep: seq<Event>, r: Receiver, s: nat, e: Event, now: Time)
    requires Heard(e, r) && TimedBy(ep + [e], now) && LastHeard(ep, r).Some?
    requires BeginsRun(ep, r, s, LastHeard(ep, r).value) && e.at - ep[LastHeard(ep, r).value].at <= ACTIVITY_GAP_MS
    ensures BeginsRun(ep + [e], r, s, |ep|)
  {
    GapFreeGoesOn(ep, r, s, LastHeard(ep, r).value, e);
    forall i: nat | GapFree(ep + [e], r, i, |ep|) ensures (ep + [e])[s].at <= (ep + [e])[i].at {
      if i < |ep| {
        GapFreeWentOn(ep, r, i, e, now);
      }
    }
  }

  lemma RunBegins(ep: seq<Event>, r: Receiver, e: Event, now: Time)
    requires Heard(e, r) && TimedBy(ep + [e], now)
    requires LastHeard(ep, r).Some? ==> e.at - ep[LastHeard(ep, r).value].at > ACTIVITY_GAP_MS
    ensures BeginsRun(ep + [e], r, |ep|, |ep|)
  {
    forall i: nat | GapFree(ep + [e], r, i, |ep|) ensures i == |ep| {
      if i < |ep| {
        GapFreeWentOn(ep, r, i, e, now);
      }
    }
  }

  ghost predicate StartsFirst(ep: seq<Event>, r: Receiver) {
    LastHeard(ep, r).Some? ==> BeginsRun(ep, r, RunStart(ep, r).value, LastHeard(ep, r).value)
  }

  lemma StartsFirstGrows(ep: seq<Event>, r: Receiver, e: Event, now: Time)
    requires StartsFirst(ep, r) && TimedBy(ep + [e], now)
    ensures StartsFirst(ep + [e], r)
  {
    RunAppends(ep, e, r);
    if !Heard(e, r) {
      if LastHeard(ep, r).Some? {
        BeginsRunGrows(ep, r, RunStart(ep, r).value, LastHeard(ep, r).value, e);
      }
    } else if LastHeard(ep, r).Some? && e.at - ep[LastHeard(ep, r).value].at <= ACTIVITY_GAP_MS {
      RunGoesOn(ep, r, RunStart(ep, r).value, e, now);
    } else {
      RunBegins(ep, r, e, now);
    }
  }

  lemma {:induction false} RunStartIsFirst(ep: seq<Event>, r: Receiver, now: Time)
    requires TimedBy(ep, now)
    ensures StartsFirst(ep, r)
    decreases |ep|
  {
    if ep != [] {
      RunStartIsFirst(ep[..|ep| - 1], r, now);
      assert ep == ep[..|ep| - 1] + [ep[|ep| - 1]];
      StartsFirstGrows(ep[..|ep| - 1], r, ep[|ep| - 1], now);
    }
  }

  lemma {:induction false} EpisodeAppends(log: seq<Event>, e: Event, r: Receiver)
    ensures Episode(log + [e], r) == if Drops(e, r) then [] else Episode(log, r) + [e]
  {
    assert (log + [e])[..|log|] == log;
  }

  lemma RunAppends(ep: seq<Event>, e: Event, r: Receiver)
    ensures LastHeard(ep + [e], r) == if Heard(e, r) then Some(|ep|) else LastHeard(ep, r)
    ensures RunStart(ep + [e], r) ==
            if !Heard(e, r) then RunStart(ep, r)
            else if LastHeard(ep, r).Some? && e.at - ep[LastHeard(ep, r).value].at <= ACTIVITY_GAP_MS then RunStart(ep, r)
            else Some(|ep|)
    ensures HeardAt(ep + [e], r) == if Heard(e, r) then Some(e.at) else HeardAt(ep, r)
    ensures NativeAt(ep + [e], r) == if IsNativeBlock(e, r) then Some(e.at) else NativeAt(ep, r)
  {
    assert (ep + [e])[..|ep|] == ep;
    CutGrows(ep, e, r);
  }

  lemma StallsAgree(ep: seq<Event>, other: seq<Event>, r: Receiver, k: nat)
    requires k < |ep| && k < |other| && (forall j | 0 <= j <= k :: other[j] == ep[j])
    requires IsFrameOf(ep[k], r) && StallsAt(ep, r, k)
    ensures StallsAt(other, r, k)
  {
    assert other[..k] == ep[..k];
    var i :| 0 <= i <= k && GapFree(ep, r, i, k) && ep[k].at - ep[i].at >= NATIVE_STALL_MS;
    GapFreeAgrees(ep, other, r, i, k);
    assert other[i] == ep[i];
  }

  lemma StallsGrow(ep: seq<Event>, e: Event, r: Receiver, k: nat)
    requires k < |ep| && IsFrameOf(ep[k], r)
    ensures StallsAt(ep + [e], r, k) <==> StallsAt(ep, r, k)
  {
    if StallsAt(ep, r, k) {
      StallsAgree(ep, ep + [e], r, k);
    } else if StallsAt(ep + [e], r, k) {
      StallsAgree(ep + [e], ep, r, k);
    }
  }

  /** A frame heard now ends a stall exactly if its run and the last native block are that old. */
  lemma StallsNow(ep: seq<Event>, e: Event, r: Receiver)
    requires Heard(e, r) && TimedBy(ep + [e], e.at)
    ensures StallsAt(ep + [e], r, |ep|) <==>
            && RunStartAt(ep + [e], r).Some? && e.at - RunStartAt(ep + [e], r).value >= NATIVE_STALL_MS
            && (NativeAt(ep, r).Some? ==> e.at - NativeAt(ep, r).value >= NATIVE_STALL_MS)
  {
    var longer := ep + [e];
    assert longer[..|ep|] == ep && longer[|ep|] == e;
    RunAppends(ep, e, r);
    RunStartIsFirst(longer, r, e.at);
    assert GapFree(longer, r, RunStart(longer, r).value, |ep|);
  }

  lemma HandedOverGrows(ep: seq<Event>, e: Event, r: Receiver)
    ensures HandedOver(ep + [e], r) <==>
            && !IsNativeBlock(e, r)
            && (HandedOver(ep, r) || (IsFrameOf(e, r) && (!e.candidate || StallsAt(ep + [e], r, |ep|))))
  {
    var longer := ep + [e];
    CutGrows(ep, e, r);
    assert longer[|ep|] == e && forall k | 0 <= k < |ep| :: longer[k] == ep[k];
    forall k | 0 <= k < |ep| && IsFrameOf(ep[k], r) ensures StallsAt(longer, r, k) <==> StallsAt(ep, r, k) {
      StallsGrow(ep, e, r, k);
    }
    if !IsNativeBlock(e, r) && HandedOver(ep, r) {
      var k :| NativeCut(ep, r) <= k < |ep| && IsFrameOf(ep[k], r) && (!ep[k].candidate || StallsAt(ep, r, k));
      assert IsFrameOf(longer[k], r) && (!longer[k].candidate || StallsAt(longer, r, k));
    }
  }

  // ---- Every operation keeps each state what its episode says ----

  /** Nothing of the receiver in its episode: a new state is right. */
  lemma NothingTracked(ep: seq<Event>, r: Receiver)
    requires forall e | e in ep :: !IsFrameOf(e, r) && !IsNativeBlock(e, r)
    ensures LastHeard(ep, r).None? && NativeCut(ep, r) == 0 && !HandedOver(ep, r)
  {
    forall k | 0 <= k < |ep| ensures !IsFrameOf(ep[k], r) && !IsNativeBlock(ep[k], r) {
      assert ep[k] in ep;
    }
  }

  lemma NewStateTracks(l: Ledger, r: Receiver, now: Time)
    requires TracksOk(l, r)
    ensures Tracks(Episode(l.log, r), r, StateOf(l, r, now))
  {
    if r !in l.states {
      NothingTracked(Episode(l.log, r), r);
    }
  }

  lemma ForeignKeeps(ep: seq<Event>, e: Event, r: Receiver, a: Arbitration)
    requires Tracks(ep, r, a) && !IsFrameOf(e, r) && !IsNativeBlock(e, r)
    ensures Tracks(ep + [e], r, a)
  {
    RunAppends(ep, e, r);
    HandedOverGrows(ep, e, r);
  }

  /** An event that is no frame and no native block of the receiver. */
  lemma ForeignTracks(l: Ledger, l': Ledger, e: Event, r: Receiver)
    requires TracksOk(l, r) && l'.log == l.log + [e] && !IsFrameOf(e, r) && !IsNativeBlock(e, r)
    requires Drops(e, r) ==> r !in l'.states
    requires !Drops(e, r) ==> (r in l'.states <==> r in l.states)
    requires r in l'.states ==> l'.states[r] == l.states[r]
    ensures TracksOk(l', r)
  {
    EpisodeAppends(l.log, e, r);
    if !Drops(e, r) && r in l.states {
      ForeignKeeps(Episode(l.log, r), e, r, l.states[r]);
    }
  }

  lemma NativeTracks(ep: seq<Event>, e: Event, r: Receiver, a: Arbitration)
    requires Tracks(ep, r, a) && IsNativeBlock(e, r)
    ensures Tracks(ep + [e], r, WithOwner(a, Native).(lastNativePcmAt := Some(e.at)))
  {
    RunAppends(ep, e, r);
    HandedOverGrows(ep, e, r);
  }

  lemma QuietFrameTracks(ep: seq<Event>, e: Event, r: Receiver, a: Arbitration, now: Time)
    requires Tracks(ep, r, a) && IsFrameOf(e, r) && !Heard(e, r) && e.at == now
    ensures Tracks(ep + [e], r, Decided(a, e.audible, e.candidate, now))
  {
    RunAppends(ep, e, r);
    HandedOverGrows(ep, e, r);
    if e.candidate {
      assert !StallsAt(ep + [e], r, |ep|) by {
        assert (ep + [e])[|ep|] == e;
      }
    }
  }

  /** An audible run is kept until its last frame is over 750 ms old. */
  predicate RunOrGap(a: Arbitration, now: Time) {
    a.lastAudibleAt.Some? ==> a.audibleSince.Some? || now - a.lastAudibleAt.value > ACTIVITY_GAP_MS
  }

  lemma HeardRun(ep: seq<Event>, e: Event, r: Receiver, a: Arbitration, now: Time)
    requires Tracks(ep, r, a) && Heard(e, r) && e.at == now && TimedBy(ep + [e], now)
    requires RunOrGap(a, now)
    ensures HearFrame(a, true, now).audibleSince == RunStartAt(ep + [e], r)
    ensures HearFrame(a, true, now).lastAudibleAt == HeardAt(ep + [e], r)
  {
    RunAppends(ep, e, r);
    if LastHeard(ep, r).Some? {
      assert (ep + [e])[LastHeard(ep, r).value] == ep[LastHeard(ep, r).value];
      assert (ep + [e])[RunStart(ep, r).value] == ep[RunStart(ep, r).value];
    }
  }

  /** The stall time has passed since the audible run began and since the last native block. */
  lemma StalledExactly(a: Arbitration, now: Time)
    requires a.audibleSince.Some? && a.audibleSince.value <= now
    requires a.lastNativePcmAt.Some? ==> a.lastNativePcmAt.value <= now
    ensures Stalled(a, now) <==>
            && now - a.audibleSince.value >= NATIVE_STALL_MS
            && (a.lastNativePcmAt.Some? ==> now - a.lastNativePcmAt.value >= NATIVE_STALL_MS)
  {
  }

  lemma TimesPassed(ep: seq<Event>, r: Receiver, now: Time)
    requires TimedBy(ep, now)
    ensures RunStartAt(ep, r).Some? ==> RunStartAt(ep, r).value <= now
    ensures NativeAt(ep, r).Some? ==> NativeAt(ep, r).value <= now
  {
  }

  lemma HeardFrameTracks(ep: seq<Event>, e: Event, r: Receiver, a: Arbitration, now: Time)
    requires Tracks(ep, r, a) && Heard(e, r) && e.at == now && TimedBy(ep + [e], now)
    requires RunOrGap(a, now)
    ensures Tracks(ep + [e], r, Decided(a, true, true, now))
  {
    HeardRun(ep, e, r, a, now);
    NativeStays(ep, e, r);
    HeardStalls(ep, e, r, HearFrame(a, true, now), now);
    HeardHandsOver(ep, e, r, a, now);
  }

  lemma HeardStalls(ep: seq<Event>, e: Event, r: Receiver, heard: Arbitration, now: Time)
    requires Heard(e, r) && e.at == now && TimedBy(ep + [e], now)
    requires heard.audibleSince == RunStartAt(ep + [e], r) && heard.lastNativePcmAt == NativeAt(ep, r)
    ensures Stalled(heard, now) <==> StallsAt(ep + [e], r, |ep|)
  {
    RunAppends(ep, e, r);
    TimesPassed(ep + [e], r, now);
    StalledExactly(heard, now);
    StallsNow(ep, e, r);
  }

  lemma NativeStays(ep: seq<Event>, e: Event, r: Receiver)
    requires IsFrameOf(e, r)
    ensures NativeAt(ep + [e], r) == NativeAt(ep, r)
  {
    RunAppends(ep, e, r);
  }

  lemma HeardHandsOver(ep: seq<Event>, e: Event, r: Receiver, a: Arbitration, now: Time)
    requires Heard(e, r) && e.at == now && (a.owner == Encoded <==> HandedOver(ep, r))
    requires Stalled(HearFrame(a, true, now), now) <==> StallsAt(ep + [e], r, |ep|)
    ensures Decided(a, true, true, now).owner == Encoded <==> HandedOver(ep + [e], r)
  {
    HandedOverGrows(ep, e, r);
  }

  lemma EpisodeTimed(log: seq<Event>, r: Receiver, now: Time)
    requires TimedBy(log, now)
    ensures TimedBy(Episode(log, r), now)
  {
  }

  lemma FrameTracks(ep: seq<Event>, r: Receiver, a: Arbitration, audible: bool, candidate: bool, now: Time)
    requires Tracks(ep, r, a) && TimedBy(ep, now) && RunOrGap(a, now)
    ensures Tracks(ep + [Frame(r, now, audible, candidate)], r, Decided(a, audible, candidate, now))
  {
    var e := Frame(r, now, audible, candidate);
    if Heard(e, r) {
      TimedGrows(ep, e, now);
      HeardFrameTracks(ep, e, r, a, now);
    } else {
      QuietFrameTracks(ep, e, r, a, now);
    }
  }

  lemma DecideTracks(l: Ledger, r: Receiver, audible: bool, candidate: bool, now: Time)
    requires TracksOk(l, r) && TimedBy(Episode(l.log, r), now) && RunOrGap(StateOf(l, r, now), now)
    ensures TracksOk(Decide(l, r, audible, candidate, now), r)
  {
    NewStateTracks(l, r, now);
    FrameContinues(l.log, r, Frame(r, now, audible, candidate));
    FrameTracks(Episode(l.log, r), r, StateOf(l, r, now), audible, candidate, now);
    TracksSince(Decide(l, r, audible, candidate, now), r, Episode(l.log, r) + [Frame(r, now, audible, candidate)],
      Decided(StateOf(l, r, now), audible, candidate, now));
  }

  lemma FrameContinues(log: seq<Event>, r: Receiver, e: Event)
    requires IsFrameOf(e, r)
    ensures Episode(log + [e], r) == Episode(log, r) + [e]
  {
    assert !Drops(e, r);
    EpisodeAppends(log, e, r);
  }

  lemma TracksSince(l: Ledger, r: Receiver, ep: seq<Event>, a: Arbitration)
    requires Episode(l.log, r) == ep && r in l.states && l.states[r] == a && Tracks(ep, r, a)
    ensures TracksOk(l, r)
  {
  }

  lemma AcceptTracks(l: Ledger, x: Receiver, path: Path, now: Time, r: Receiver)
    requires TracksOk(l, r)
    ensures TracksOk(Accept(l, x, path, now), r)
  {
    var e := Block(x, now, path);
    if IsNativeBlock(e, r) {
      NewStateTracks(l, r, now);
      EpisodeAppends(l.log, e, r);
      NativeTracks(Episode(l.log, r), e, r, StateOf(l, r, now));
    } else {
      ForeignTracks(l, Accept(l, x, path, now), e, r);
    }
  }

  // ---- Every operation keeps the ledger well-formed ----

  lemma TimePasses(l: Ledger, now: Time, later: Time)
    requires LedgerOk(l, now) && now <= later
    ensures LedgerOk(l, later)
  {
    forall r ensures TracksOk(l, r) {
    }
    forall k | k in l.states
      ensures AudibleRunOk(l.log, k, l.states[k], later)
      ensures OwnershipOk(l.log, k, l.states[k])
    {
      assert AudibleRunOk(l.log, k, l.states[k], now);
    }
  }

  lemma NewStateOk(l: Ledger, r: Receiver, now: Time)
    requires LedgerOk(l, now)
    ensures AudibleRunOk(l.log, r, StateOf(l, r, now), now)
    ensures OwnershipOk(l.log, r, StateOf(l, r, now))
  {
    if r in l.states {
      assert AudibleRunOk(l.log, r, l.states[r], now);
      assert OwnershipOk(l.log, r, l.states[r]);
    }
  }

  /** Hearing one more frame extends the audible run or starts a new one. */
  lemma HearFrameOk(log: seq<Event>, e: Event, r: Receiver, a: Arbitration, now: Time)
    requires AudibleRunOk(log, r, a, now)
    requires IsFrameOf(e, r) && e.at == now
    ensures AudibleRunOk(log + [e], r, HearFrame(a, e.audible, now), now)
  {
    var longer := log + [e];
    AudibleRunGrows(log, e, r, a, now);
    if e.audible {
      forall x: Time | now <= x <= now + ACTIVITY_GAP_MS ensures CarriedAt(longer, r, x) {
        assert Carries(e, r, x);
        CarriedGrows(log, e, r, x);
      }
      if Continuing(a.lastAudibleAt, now) {
        assert Covers(longer, r, a.audibleSince.value, now);
      }
    }
  }

  /** A stalled native path hands over only after a covered, audible stall time. */
  lemma StallJustifies(log: seq<Event>, e: Event, r: Receiver, a: Arbitration, now: Time)
    requires AudibleRunOk(log + [e], r, a, now) && a.audibleSince.Some? && a.lastAudibleAt == Some(now)
    requires OwnershipOk(log, r, a.(audibleSince := None)) && a.owner == Native
    requires IsFrameOf(e, r) && e.at == now && Stalled(a, now)
    ensures Justified(log + [e], r)
  {
    CutGrows(log, e, r);
    assert (log + [e])[|log|] == e;
    assert StallFrom(log + [e], r, ProgressAt(a));
  }

  lemma DecidedOk(log: seq<Event>, e: Event, r: Receiver, a: Arbitration, now: Time)
    requires AudibleRunOk(log, r, a, now) && OwnershipOk(log, r, a)
    requires IsFrameOf(e, r) && e.at == now
    ensures AudibleRunOk(log + [e], r, Decided(a, e.audible, e.candidate, now), now)
    ensures OwnershipOk(log + [e], r, Decided(a, e.audible, e.candidate, now))
  {
    if e.candidate {
      HeardDecidedOk(log, e, r, a, now);
    } else {
      LeftDecidedOk(log, e, r, a, now);
    }
  }

  /** A frame of a receiver that is no native candidate: the encoded path owns the source. */
  lemma LeftDecidedOk(log: seq<Event>, e: Event, r: Receiver, a: Arbitration, now: Time)
    requires AudibleRunOk(log, r, a, now) && OwnershipOk(log, r, a)
    requires IsFrameOf(e, r) && e.at == now && !e.candidate
    ensures AudibleRunOk(log + [e], r, WithOwner(a, Encoded), now) && OwnershipOk(log + [e], r, WithOwner(a, Encoded))
  {
    StateStaysOk(log, e, r, a, now);
    CutGrows(log, e, r);
    assert (log + [e])[|log|] == e;
    assert LeftCandidacy(log + [e], r);
    OwnerAppended(log + [e], r, a, Encoded);
  }

  lemma HeardDecidedOk(log: seq<Event>, e: Event, r: Receiver, a: Arbitration, now: Time)
    requires AudibleRunOk(log, r, a, now) && OwnershipOk(log, r, a)
    requires IsFrameOf(e, r) && e.at == now && e.candidate
    ensures AudibleRunOk(log + [e], r, Decided(a, e.audible, true, now), now)
    ensures OwnershipOk(log + [e], r, Decided(a, e.audible, true, now))
  {
    var heard := HearFrame(a, e.audible, now);
    StateStaysOk(log, e, r, a, now);
    HearFrameOk(log, e, r, a, now);
    if heard.owner == Native && e.audible && Stalled(heard, now) {
      StallJustifies(log, e, r, heard, now);
      OwnerDecided(log + [e], r, a, heard, Encoded, now);
    } else {
      OwnerDecided(log + [e], r, a, heard, heard.owner, now);
    }
  }

  /** Naming the owner of a heard state, which differs from the last one only in its audible run. */
  lemma OwnerDecided(log: seq<Event>, r: Receiver, a: Arbitration, heard: Arbitration, owner: Path, now: Time)
    requires AudibleRunOk(log, r, heard, now) && OwnershipOk(log, r, a)
    requires heard == a.(audibleSince := heard.audibleSince, lastAudibleAt := heard.lastAudibleAt)
    requires owner == heard.owner || (owner == Encoded && Justified(log, r))
    ensures AudibleRunOk(log, r, WithOwner(heard, owner), now) && OwnershipOk(log, r, WithOwner(heard, owner))
  {
    OwnerAppended(log, r, heard, owner);
  }

  lemma OwnerAppended(log: seq<Event>, r: Receiver, a: Arbitration, owner: Path)
    requires |a.owners| > 0 && a.owners[0] == Native && a.owners[|a.owners| - 1] == a.owner
    requires a.switches == Changes(a.owners)
    ensures var b := WithOwner(a, owner);
            && |b.owners| > 0 && b.owners[0] == Native && b.owners[|b.owners| - 1] == b.owner
            && b.switches == Changes(b.owners)
  {
    assert WithOwner(a, owner).owners[..|a.owners|] == a.owners;
  }

  lemma OthersStayOk(l: Ledger, l': Ledger, e: Event, k: Receiver, now: Time)
    requires LedgerOk(l, now) && k in l.states && k in l'.states
    requires l'.states[k] == l.states[k] && l'.log == l.log + [e]
    requires !IsNativeBlock(e, k)
    ensures AudibleRunOk(l'.log, k, l'.states[k], now)
    ensures OwnershipOk(l'.log, k, l'.states[k])
  {
    StateStaysOk(l.log, e, k, l.states[k], now);
  }

  lemma DecideOk(l: Ledger, r: Receiver, audible: bool, candidate: bool, now: Time)
    requires LedgerOk(l, now)
    ensures LedgerOk(Decide(l, r, audible, candidate, now), now)
  {
    var l' := Decide(l, r, audible, candidate, now);
    var e := Frame(r, now, audible, candidate);
    LogStaysOk(l.log, e, now);
    HolderGrows(l.log, e);
    forall k ensures TracksOk(l', k) {
      assert TracksOk(l, k);
      if k == r {
        NewStateOk(l, r, now);
        EpisodeTimed(l.log, r, now);
        DecideTracks(l, r, audible, candidate, now);
      } else {
        ForeignTracks(l, l', e, k);
      }
    }
    forall k | k in l'.states
      ensures AudibleRunOk(l'.log, k, l'.states[k], now)
      ensures OwnershipOk(l'.log, k, l'.states[k])
    {
      if k == r {
        NewStateOk(l, r, now);
        DecidedOk(l.log, e, r, StateOf(l, r, now), now);
      } else {
        OthersStayOk(l, l', e, k, now);
      }
    }
  }

  /** Who owns the source on the encoded path is what the log says: no stall is missed, and none invented. */
  lemma OwnsExactly(l: Ledger, now: Time, r: Receiver)
    requires LedgerOk(l, now)
    ensures CanPublish(l, r) <==> HandedOver(Episode(l.log, r), r)
  {
    assert TracksOk(l, r);
    if r !in l.states {
      NothingTracked(Episode(l.log, r), r);
    }
  }

  lemma ClaimableFollows(l: Ledger, r: Receiver, path: Path, now: Time)
    requires LedgerOk(l, now)
    ensures var h := Holder(l.log);
            Claimable(l, r, path, now) <==>
            h.None? || MayFollow(l.log[h.value], Block(r, now, path))
  {
    assert LeaseOk(l);
  }

  lemma NativeTakesOver(log: seq<Event>, e: Event, r: Receiver, a: Arbitration, now: Time)
    requires AudibleRunOk(log, r, a, now) && OwnershipOk(log, r, a)
    requires IsNativeBlock(e, r) && e.at == now
    ensures var b := WithOwner(a, Native).(lastNativePcmAt := Some(now));
            AudibleRunOk(log + [e], r, b, now) && OwnershipOk(log + [e], r, b)
  {
    AudibleRunGrows(log, e, r, a, now);
    CutGrows(log, e, r);
    assert (log + [e])[|log|] == e;
    OwnerAppended(log + [e], r, a, Native);
  }

  lemma AcceptOk(l: Ledger, r: Receiver, path: Path, now: Time)
    requires LedgerOk(l, now) && Claimable(l, r, path, now)
    requires path == Encoded ==> Justified(l.log, r)
    ensures LedgerOk(Accept(l, r, path, now), now)
  {
    var l' := Accept(l, r, path, now);
    var e := Block(r, now, path);
    ClaimableFollows(l, r, path, now);
    LogStaysOk(l.log, e, now);
    HolderGrows(l.log, e);
    forall k ensures TracksOk(l', k) {
      assert TracksOk(l, k);
      AcceptTracks(l, r, path, now, k);
    }
    forall k | k in l'.states
      ensures AudibleRunOk(l'.log, k, l'.states[k], now)
      ensures OwnershipOk(l'.log, k, l'.states[k])
    {
      if path == Native && k == r {
        NewStateOk(l, r, now);
        NativeTakesOver(l.log, e, r, StateOf(l, r, now), now);
      } else {
        OthersStayOk(l, l', e, k, now);
      }
    }
  }

  lemma AcceptWhenClaimable(l: Ledger, r: Receiver, now: Time)
    requires LedgerOk(l, now)
    ensures Claimable(l, r, Native, now) ==> LedgerOk(Accept(l, r, Native, now), now)
  {
    if Claimable(l, r, Native, now) {
      AcceptOk(l, r, Native, now);
    }
  }

  lemma EncodedOwnerJustified(l: Ledger, r: Receiver, now: Time)
    requires LedgerOk(l, now) && CanPublish(l, r)
    ensures Justified(l.log, r)
  {
    assert OwnershipOk(l.log, r, l.states[r]);
  }

  lemma ForgottenOk(l: Ledger, l': Ledger, e: Event, now: Time)
    requires LedgerOk(l, now)
    requires e.Forgotten?
    requires l'.log == l.log + [e]
    requires forall k | k in l'.states :: k in l.states && l'.states[k] == l.states[k]
    requires forall k :: Drops(e, k) || (k in l.states ==> k in l'.states)
    requires forall k | Drops(e, k) :: k !in l'.states
    requires l'.lease.None?
    ensures LedgerOk(l', now)
  {
    LogStaysOk(l.log, e, now);
    HolderGrows(l.log, e);
    forall k ensures TracksOk(l', k) {
      assert TracksOk(l, k);
      ForeignTracks(l, l', e, k);
    }
    forall k | k in l'.states
      ensures AudibleRunOk(l'.log, k, l'.states[k], now)
      ensures OwnershipOk(l'.log, k, l'.states[k])
    {
      OthersStayOk(l, l', e, k, now);
    }
  }

  lemma ForgetOk(l: Ledger, tapped: set<Receiver>, now: Time)
    requires LedgerOk(l, now)
    ensures LedgerOk(Forget(l, tapped), now)
  {
    ForgottenOk(l, Forget(l, tapped), Forgotten(l.states.Keys - tapped), now);
  }

  lemma ForgetAllOk(l: Ledger, now: Time)
    requires LedgerOk(l, now)
    ensures LedgerOk(ForgetAll(l), now)
  {
    ForgottenOk(l, ForgetAll(l), Forgotten({}), now);
  }

  lemma ForgetReceiverOk(l: Ledger, r: Receiver, now: Time)
    requires LedgerOk(l, now)
    ensures LedgerOk(ForgetReceiver(l, r), now)
  {
    var l' := ForgetReceiver(l, r);
    LogStaysOk(l.log, Released(r), now);
    HolderGrows(l.log, Released(r));
    forall k ensures TracksOk(l', k) {
      assert TracksOk(l, k);
      ForeignTracks(l, l', Released(r), k);
    }
    forall k | k in l'.states
      ensures AudibleRunOk(l'.log, k, l'.states[k], now)
      ensures OwnershipOk(l'.log, k, l'.states[k])
    {
      OthersStayOk(l, l', Released(r), k, now);
    }
  }

  // ---- What a well-formed log means ----

  /** An accepted encoded block comes at least 1500 ms after the last native one. */
  lemma EncodedWaitsForStall(log: seq<Event>, now: Time, n: nat, i: nat)
    requires TimedBy(log, now) && EncodedBlocksJustified(log)
    requires n < i < |log|
    requires log[i].Block? && log[i].path == Encoded
    requires IsNativeBlock(log[n], log[i].receiver)
    requires forall k | n < k < i :: !IsNativeBlock(log[k], log[i].receiver)
    requires forall k | n < k < i && IsFrameOf(log[k], log[i].receiver) :: log[k].candidate
    ensures log[i].at - log[n].at >= NATIVE_STALL_MS
    ensures exists from :: StallWindow(log[..i], log[i].receiver, from, log[n].at, log[i].at)
  {
    var r, before := log[i].receiver, log[..i];
    assert Justified(before, r);
    CutIsBehind(before, r, n);
    assert !LeftCandidacy(before, r);
    var from :| StallFrom(before, r, from);
    var k :| n < k < i && IsFrameOf(before[k], r) && before[k].at >= from + NATIVE_STALL_MS;
    assert before[n] == log[n] && before[k] == log[k];
    CutIsBehind(before, r, n);
    assert StallWindow(before, r, from, log[n].at, log[i].at);
  }

  /** An audible stall time inside `since..until`: no instant more than 750 ms behind an audible frame. */
  ghost predicate StallWindow(log: seq<Event>, r: Receiver, from: Time, since: Time, until: Time) {
    since <= from && from + NATIVE_STALL_MS <= until && Covers(log, r, from, from + NATIVE_STALL_MS)
  }

  lemma CutIsBehind(log: seq<Event>, r: Receiver, n: nat)
    requires n < |log| && IsNativeBlock(log[n], r)
    requires forall k | n < k < |log| :: !IsNativeBlock(log[k], r)
    ensures NativeCut(log, r) == n + 1
  {
  }

  /** Two consecutive accepted blocks of one source, with no owner change between them. */
  lemma ConsecutiveBlocksSpaced(log: seq<Event>, i: nat, j: nat)
    requires BlocksSpaced(log)
    requires i < j < |log|
    requires log[i].Block? && log[j].Block?
    requires forall k | i < k < j :: !log[k].Block? && !log[k].Forgotten?
    ensures MayFollow(log[i], log[j])
  {
    HolderIs(log[..j], i);
    assert Spaced(log, j);
  }

  lemma {:induction false} HolderIs(log: seq<Event>, i: nat)
    requires i < |log| && log[i].Block?
    requires forall k | i < k < |log| :: !log[k].Block? && !log[k].Forgotten?
    ensures Holder(log) == Some(i)
    decreases |log|
  {
    if i < |log| - 1 {
      assert log[..|log| - 1][i] == log[i];
      HolderIs(log[..|log| - 1], i);
    }
  }

  lemma LeaseHolds(l: Ledger, tapped: set<Receiver>, first: Receiver, second: Receiver, path: Path, now: Time)
    requires first != second
    ensures var accepted := Accept(l, first, path, now);
            !Claimable(accepted, second, path, now) && Claimable(Forget(accepted, tapped), second, path, now)
  {
  }

  /** An owner change between two blocks lifts the spacing: another receiver may follow in the same instant. */
  lemma OwnerChangeLiftsSpacing(l: Ledger, tapped: set<Receiver>, first: Receiver, second: Receiver, path: Path, now: Time)
    requires LedgerOk(l, now) && Claimable(l, first, path, now) && first != second
    requires path == Encoded ==> Justified(l.log, first)
    ensures var accepted := Accept(l, first, path, now);
            && LedgerOk(accepted, now)
            && !Claimable(accepted, second, path, now)
            && Claimable(Forget(accepted, tapped), second, path, now)
  {
    AcceptOk(l, first, path, now);
    LeaseHolds(l, tapped, first, second, path, now);
  }

  // ---- The state of one receiver and the log ----

  /** The state of one receiver rests on the log, whatever the log says of others. */
  ghost predicate Rests(l: Ledger, r: Receiver, now: Time) {
    && TimedBy(l.log, now)
    && (r in l.states ==> AudibleRunOk(l.log, r, l.states[r], now) && OwnershipOk(l.log, r, l.states[r]))
  }

  lemma NewStateRests(l: Ledger, r: Receiver, now: Time)
    requires Rests(l, r, now)
    ensures AudibleRunOk(l.log, r, StateOf(l, r, now), now) && OwnershipOk(l.log, r, StateOf(l, r, now))
  {
  }

  lemma TimedGrows(log: seq<Event>, e: Event, now: Time)
    requires TimedBy(log, now) && (Timed(e) ==> e.at == now)
    ensures TimedBy(log + [e], now)
  {
  }

  lemma DecideRests(l: Ledger, x: Receiver, audible: bool, candidate: bool, r: Receiver, now: Time)
    requires Rests(l, r, now)
    ensures Rests(Decide(l, x, audible, candidate, now), r, now)
  {
    var e := Frame(x, now, audible, candidate);
    TimedGrows(l.log, e, now);
    if x == r {
      NewStateRests(l, r, now);
      DecidedOk(l.log, e, r, StateOf(l, r, now), now);
    } else if r in l.states {
      StateStaysOk(l.log, e, r, l.states[r], now);
    }
  }

  lemma AcceptRests(l: Ledger, x: Receiver, path: Path, r: Receiver, now: Time)
    requires Rests(l, r, now)
    ensures Rests(Accept(l, x, path, now), r, now)
  {
    var e := Block(x, now, path);
    TimedGrows(l.log, e, now);
    if x == r && path == Native {
      NewStateRests(l, r, now);
      NativeTakesOver(l.log, e, r, StateOf(l, r, now), now);
    } else if r in l.states {
      StateStaysOk(l.log, e, r, l.states[r], now);
    }
  }

  lemma ReleaseRests(l: Ledger, x: Receiver, r: Receiver, now: Time)
    requires Rests(l, r, now)
    ensures Rests(ForgetReceiver(l, x), r, now)
  {
    TimedGrows(l.log, Released(x), now);
    if r in l.states && r != x {
      StateStaysOk(l.log, Released(x), r, l.states[r], now);
    }
  }

  // ---- What was logged since the last reset ----

  function Since(log: seq<Event>): seq<Event> {
    if log == [] || log[|log| - 1].Forgotten? then [] else Since(log[..|log| - 1]) + [log[|log| - 1]]
  }

  lemma SinceAppends(log: seq<Event>, e: Event)
    ensures Since(log + [e]) == if e.Forgotten? then [] else Since(log) + [e]
  {
    assert (log + [e])[..|log|] == log;
  }

  function SinceReset(l: Ledger): Ledger {
    l.(log := Since(l.log))
  }

  /** Nothing but native audio is known of the receiver. */
  predicate Unheard(a: Arbitration) {
    a.owner == Native && a.audibleSince.None? && a.lastAudibleAt.None?
  }

  /** A receiver of which no encoded frame was heard rests on an empty log. */
  lemma UnheardRests(l: Ledger, r: Receiver, now: Time)
    requires l.log == [] && (r in l.states ==> Unheard(l.states[r]))
    requires r in l.states ==> exists log :: AudibleRunOk(log, r, l.states[r], now) && OwnershipOk(log, r, l.states[r])
    ensures Rests(l, r, now)
  {
  }
}
