/**
 When an encoded Meet lane counts as stalled: `nextMeetRemoteAudioHealth` of
 `browser-extension/src/capture-policy.js`, and what its reports mean over any run of
 readings. A level that is no finite number is `None`.
 */
module RemoteAudioHealth {
  import opened Wrappers

  type Time = real

  const AUDIBLE_LEVEL: real := 0.01
  const ACTIVITY_GAP_MS: Time := 750.0
  const STALL_MS: Time := 4000.0
  const RECOVERY_COOLDOWN_MS: Time := 8000.0

  datatype Reading = Reading(
    now: Time, source: string, level: Option<real>,
    encoded: nat, decoded: nat, pcm: nat, recovering: bool)

  datatype Health = Health(
    source: string,
    audibleSince: Option<Time>,
    lastAudibleAt: Option<Time>,
    lastDecodedAt: Option<Time>,
    lastPcmAt: Option<Time>,
    lastRecoveryAt: Option<Time>,
    encoded: nat, decoded: nat, pcm: nat,
    stalled: bool)

  predicate Audible(r: Reading) {
    r.source != "" && r.level.Some? && r.level.value >= AUDIBLE_LEVEL
  }

  predicate Continuing(last: Option<Time>, now: Time) {
    last.Some? && last.value <= now && now - last.value <= ACTIVITY_GAP_MS
  }

  predicate OlderThan(last: Option<Time>, now: Time, ms: Time) {
    last.None? || now < last.value || now - last.value >= ms
  }

  function Next(previous: Option<Health>, r: Reading): Health {
    var state := if previous.Some? && previous.value.source == r.source then previous.value
                 else Health(r.source, None, None, None, None, None, 0, 0, 0, false);
    var heard := Audible(r) && r.encoded > state.encoded;
    var continuing := Continuing(state.lastAudibleAt, r.now);
    var since := if heard then (if continuing then state.audibleSince else Some(r.now))
                 else (if continuing then state.audibleSince else None);
    var lastPcmAt := if r.pcm > state.pcm then Some(r.now) else state.lastPcmAt;
    var lastRecoveryAt := if r.recovering then Some(r.now) else state.lastRecoveryAt;
    var audibleSince := if !r.recovering then since else if Audible(r) then Some(r.now) else None;
    Health(
      r.source, audibleSince,
      if heard then Some(r.now) else state.lastAudibleAt,
      if r.decoded > state.decoded then Some(r.now) else state.lastDecodedAt,
      lastPcmAt, lastRecoveryAt, r.encoded, r.decoded, r.pcm,
      && !r.recovering
      && Audible(r) && audibleSince.Some? && audibleSince.value <= r.now && r.now - audibleSince.value >= STALL_MS
      && OlderThan(lastPcmAt, r.now, STALL_MS)
      && OlderThan(lastRecoveryAt, r.now, RECOVERY_COOLDOWN_MS))
  }

  function Run(rs: seq<Reading>): Option<Health> {
    if rs == [] then None else Some(Next(Run(rs[..|rs| - 1]), rs[|rs| - 1]))
  }

  // ---- What happened, told from the readings alone ----

  datatype Event = Heard | Published | Recovered

  /** Reading `k` follows one of the same source. */
  predicate Follows(rs: seq<Reading>, k: nat)
    requires k < |rs|
  {
    k > 0 && rs[k - 1].source == rs[k].source
  }

  predicate Happens(rs: seq<Reading>, k: nat, e: Event)
    requires k < |rs|
  {
    match e
    case Heard => Audible(rs[k]) && rs[k].encoded > (if Follows(rs, k) then rs[k - 1].encoded else 0)
    case Published => rs[k].pcm > (if Follows(rs, k) then rs[k - 1].pcm else 0)
    case Recovered => rs[k].recovering
  }

  /** When an event last happened at the present source. */
  function Latest(rs: seq<Reading>, e: Event): Option<Time> {
    if rs == [] then None
    else
      var n := |rs| - 1;
      if Happens(rs, n, e) then Some(rs[n].now) else if Follows(rs, n) then Latest(rs[..n], e) else None
  }

  /** The readings from `j` on are of the present source. */
  predicate InSpan(rs: seq<Reading>, j: nat) {
    j < |rs| && forall k | j <= k < |rs| :: rs[k].source == rs[|rs| - 1].source
  }

  predicate Ordered(rs: seq<Reading>) {
    forall j, k | 0 <= j < k < |rs| :: rs[j].now <= rs[k].now
  }

  /** The event did not happen at the present source within the last `ms`. */
  ghost predicate NotWithin(rs: seq<Reading>, e: Event, ms: Time)
    requires rs != []
  {
    forall j: nat | InSpan(rs, j) && Happens(rs, j, e) :: rs[|rs| - 1].now - rs[j].now >= ms
  }

  lemma FrontHappens(rs: seq<Reading>, k: nat, e: Event)
    requires k + 1 < |rs|
    ensures Happens(rs[..|rs| - 1], k, e) == Happens(rs, k, e) && Follows(rs[..|rs| - 1], k) == Follows(rs, k)
  {
  }

  lemma FrontSpan(rs: seq<Reading>, j: nat)
    requires j + 1 < |rs|
    ensures InSpan(rs, j) <==> Follows(rs, |rs| - 1) && InSpan(rs[..|rs| - 1], j)
  {
    var n := |rs| - 1;
    var front := rs[..n];
    if InSpan(rs, j) {
      assert rs[n - 1].source == rs[n].source;
      forall k | j <= k < n ensures front[k].source == front[n - 1].source {
        assert rs[k].source == rs[n].source;
      }
    }
    if Follows(rs, n) && InSpan(front, j) {
      forall k | j <= k <= n ensures rs[k].source == rs[n].source {
        if k < n {
          assert front[k].source == front[n - 1].source;
        }
      }
    }
  }

  /** Exactly when the latest time is at least `ms` ago. */
  lemma {:induction false} LatestTells(rs: seq<Reading>, e: Event, now: Time, ms: Time)
    requires Ordered(rs) && rs != [] && rs[|rs| - 1].now <= now && ms > 0.0
    ensures Latest(rs, e).Some? ==> Latest(rs, e).value <= now
    ensures OlderThan(Latest(rs, e), now, ms) <==> forall j: nat | InSpan(rs, j) && Happens(rs, j, e) :: now - rs[j].now >= ms
    decreases |rs|
  {
    var n := |rs| - 1;
    if Happens(rs, n, e) {
      assert InSpan(rs, n);
    } else {
      if Follows(rs, n) {
        LatestTells(rs[..n], e, now, ms);
      }
      forall j: nat | j < n ensures InSpan(rs, j) && Happens(rs, j, e) <==>
                                    Follows(rs, n) && InSpan(rs[..n], j) && Happens(rs[..n], j, e)
      {
        FrontSpan(rs, j);
        FrontHappens(rs, j, e);
      }
    }
  }

  // ---- The run of audible frames ----

  /** Reading `k` continues what its source sounded at most 750 ms before, with no recovery. */
  predicate Continues(rs: seq<Reading>, k: nat)
    requires k < |rs|
  {
    Follows(rs, k) && !rs[k].recovering && Continuing(Latest(rs[..k], Heard), rs[k].now)
  }

  /** Reading `k` begins a run: an audible recovery, or audible frames after a pause. */
  predicate Begins(rs: seq<Reading>, k: nat)
    requires k < |rs|
  {
    Audible(rs[k]) && (rs[k].recovering || (Happens(rs, k, Heard) && !Continues(rs, k)))
  }

  /** The present run of audible frames began at `i`. */
  predicate RunFrom(rs: seq<Reading>, i: nat) {
    i < |rs| && Begins(rs, i) && forall k | i < k < |rs| :: Continues(rs, k)
  }

  lemma RunIsUnique(rs: seq<Reading>, i: nat, j: nat)
    requires RunFrom(rs, i) && RunFrom(rs, j)
    ensures i == j
  {
    assert i < j ==> Continues(rs, j);
    assert j < i ==> Continues(rs, i);
  }

  lemma FrontRun(rs: seq<Reading>, i: nat)
    requires i + 1 < |rs|
    ensures RunFrom(rs, i) <==> RunFrom(rs[..|rs| - 1], i) && Continues(rs, |rs| - 1)
  {
    var front := rs[..|rs| - 1];
    forall k: nat | k < |front| ensures Continues(front, k) == Continues(rs, k) && Begins(front, k) == Begins(rs, k) {
      assert front[..k] == rs[..k];
    }
  }

  /** What the state remembers is what happened. */
  predicate Remembers(rs: seq<Reading>, h: Health)
    requires rs != []
  {
    var last := rs[|rs| - 1];
    && h.source == last.source && h.encoded == last.encoded && h.pcm == last.pcm
    && h.lastAudibleAt == Latest(rs, Heard) && h.lastPcmAt == Latest(rs, Published)
    && h.lastRecoveryAt == Latest(rs, Recovered)
  }

  lemma {:induction false} StateRemembers(rs: seq<Reading>)
    requires rs != []
    ensures Remembers(rs, Run(rs).value)
  {
    if |rs| > 1 {
      StateRemembers(rs[..|rs| - 1]);
    }
  }

  lemma SinceStep(rs: seq<Reading>)
    requires rs != []
    ensures var n := |rs| - 1;
            Run(rs).value.audibleSince ==
            if Begins(rs, n) then Some(rs[n].now)
            else if Continues(rs, n) then Run(rs[..n]).value.audibleSince else None
  {
    var n := |rs| - 1;
    if n > 0 {
      StateRemembers(rs[..n]);
    }
  }

  /** `audibleSince` is where the present run began, and absent exactly if there is none. */
  lemma {:induction false} SinceIsRunStart(rs: seq<Reading>)
    requires rs != []
    ensures Run(rs).value.audibleSince.None? ==> forall i: nat :: !RunFrom(rs, i)
    ensures Run(rs).value.audibleSince.Some? ==>
              exists i: nat :: RunFrom(rs, i) && Run(rs).value.audibleSince.value == rs[i].now
  {
    var n := |rs| - 1;
    SinceStep(rs);
    assert Begins(rs, n) <==> RunFrom(rs, n);
    if n > 0 {
      var front := rs[..n];
      SinceIsRunStart(front);
      forall i: nat | i < n ensures RunFrom(rs, i) <==> RunFrom(front, i) && Continues(rs, n) {
        FrontRun(rs, i);
      }
      if Continues(rs, n) && Run(front).value.audibleSince.Some? {
        var i: nat :| RunFrom(front, i) && Run(front).value.audibleSince.value == front[i].now;
        assert RunFrom(rs, i) && rs[i] == front[i];
      }
    }
  }

  lemma StalledIs(rs: seq<Reading>)
    requires rs != []
    ensures var last, h := rs[|rs| - 1], Run(rs).value;
            h.stalled <==>
            && !last.recovering && Audible(last) && h.audibleSince.Some?
            && h.audibleSince.value <= last.now && last.now - h.audibleSince.value >= STALL_MS
            && OlderThan(h.lastPcmAt, last.now, STALL_MS) && OlderThan(h.lastRecoveryAt, last.now, RECOVERY_COOLDOWN_MS)
  {
  }

  lemma RunAge(rs: seq<Reading>)
    requires rs != [] && Ordered(rs)
    ensures var now, since := rs[|rs| - 1].now, Run(rs).value.audibleSince;
            (exists i: nat :: RunFrom(rs, i) && now - rs[i].now >= STALL_MS) <==>
            since.Some? && since.value <= now && now - since.value >= STALL_MS
  {
    SinceIsRunStart(rs);
    var since := Run(rs).value.audibleSince;
    if since.Some? {
      var i: nat :| RunFrom(rs, i) && since.value == rs[i].now;
      assert rs[i].now <= rs[|rs| - 1].now;
      forall j: nat | RunFrom(rs, j) ensures j == i {
        RunIsUnique(rs, i, j);
      }
    }
  }

  lemma NotWithinIs(rs: seq<Reading>, e: Event, ms: Time)
    requires rs != [] && Ordered(rs) && ms > 0.0
    ensures OlderThan(Latest(rs, e), rs[|rs| - 1].now, ms) <==> NotWithin(rs, e, ms)
  {
    LatestTells(rs, e, rs[|rs| - 1].now, ms);
  }

  /**
   Exactly when a stall is reported, over any readings in time order: the lane is audible
   now and has been without a pause of 750 ms for 4 s, and within those 4 s no PCM came
   and within 8 s no recovery.
   */
  lemma StallExactly(rs: seq<Reading>)
    requires rs != [] && Ordered(rs)
    ensures var last := rs[|rs| - 1];
            Run(rs).value.stalled <==>
            && !last.recovering && Audible(last)
            && (exists i: nat :: RunFrom(rs, i) && last.now - rs[i].now >= STALL_MS)
            && NotWithin(rs, Published, STALL_MS) && NotWithin(rs, Recovered, RECOVERY_COOLDOWN_MS)
  {
    StateRemembers(rs);
    StalledIs(rs);
    RunAge(rs);
    NotWithinIs(rs, Published, STALL_MS);
    NotWithinIs(rs, Recovered, RECOVERY_COOLDOWN_MS);
  }

  /**
   A recovery at a quiet instant forgets where the run began, and frames that go on
   without a pause do not begin another: until a pause, no stall is reported any more.
   */
  lemma QuietRecoveryBlinds(rs: seq<Reading>, q: nat)
    requires Ordered(rs) && q < |rs| && rs[q].recovering && !Audible(rs[q])
    requires forall k | q < k < |rs| :: Continues(rs, k)
    ensures !Run(rs).value.stalled
  {
    StallExactly(rs);
    if i: nat :| RunFrom(rs, i) {
      assert i != q && (i < q ==> Continues(rs, q)) && (i > q ==> Continues(rs, i));
    }
  }
}
