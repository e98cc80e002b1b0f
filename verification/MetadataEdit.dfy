/**
 The metadata-edit revision protocol of `src/app.js`: while a meeting's tags or folder are
 being edited, a reload started by a new summary must not replace what the user sees.
 An `await` ends a step; the maps are JavaScript maps whose missing entries read as 0.
 */
module MetadataEdit {
  import opened Wrappers

  type MeetingId = nat

  /** A meeting object on screen: its identity, and the meeting it shows. */
  datatype Viewed = Viewed(object: nat, meeting: MeetingId)

  datatype Phase = Refreshing | Loading

  /** A reload waiting at one of its two `await`s. */
  datatype Reload = Reload(meeting: MeetingId, seen: Option<Viewed>, revision: nat, phase: Phase)

  /** `edits` holds the meetings of every edit begun and not finished. */
  datatype State = State(
    viewing: Option<Viewed>,
    revisions: map<MeetingId, nat>,
    counts: map<MeetingId, nat>,
    edits: seq<seq<MeetingId>>,
    reloads: map<nat, Reload>,
    started: nat)

  const INITIAL := State(None, map[], map[], [], map[], 0)

  function Get(m: map<MeetingId, nat>, id: MeetingId): nat {
    if id in m then m[id] else 0
  }

  /** One more for every listed meeting. */
  function Raised(m: map<MeetingId, nat>, ids: seq<MeetingId>): map<MeetingId, nat> {
    if ids == [] then m
    else
      var front, last := Raised(m, ids[..|ids| - 1]), ids[|ids| - 1];
      front[last := Get(front, last) + 1]
  }

  /** One less for every listed meeting; an entry that would reach 0 goes. */
  function Lowered(m: map<MeetingId, nat>, ids: seq<MeetingId>): map<MeetingId, nat> {
    if ids == [] then m
    else
      var front, last := Lowered(m, ids[..|ids| - 1]), ids[|ids| - 1];
      if Get(front, last) <= 1 then front - {last} else front[last := Get(front, last) - 1]
  }

  // ---- Steps ----

  datatype Step =
    | Show(shown: Option<Viewed>)
    | BeginEdit(meetings: seq<MeetingId>)
    | FinishEdit(edit: nat)
    | StartReload(meeting: MeetingId)
    | Refreshed(reload: nat)
    | Loaded(loading: nat, saved: Option<Viewed>)

  function Begin(s: State, ids: seq<MeetingId>): State {
    s.(revisions := Raised(s.revisions, ids), counts := Raised(s.counts, ids), edits := s.edits + [ids])
  }

  function FinishAt(s: State, i: nat): State
    requires i < |s.edits|
  {
    s.(revisions := Raised(s.revisions, s.edits[i]), counts := Lowered(s.counts, s.edits[i]),
       edits := s.edits[..i] + s.edits[i + 1..])
  }

  function Start(s: State, meeting: MeetingId): State {
    var seen := if s.viewing.Some? && s.viewing.value.meeting == meeting then s.viewing else None;
    s.(reloads := s.reloads[s.started := Reload(meeting, seen, Get(s.revisions, meeting), Refreshing)],
       started := s.started + 1)
  }

  /** The check made after each `await`. */
  predicate Unchanged(s: State, r: Reload) {
    && r.seen.Some? && s.viewing == r.seen
    && Get(s.counts, r.meeting) == 0 && Get(s.revisions, r.meeting) == r.revision
  }

  function AfterRefresh(s: State, r: nat): State
    requires r in s.reloads
  {
    if Unchanged(s, s.reloads[r]) then s.(reloads := s.reloads[r := s.reloads[r].(phase := Loading)])
    else s.(reloads := s.reloads - {r})
  }

  function AfterLoad(s: State, r: nat, saved: Option<Viewed>): State
    requires r in s.reloads
  {
    var done := s.(reloads := s.reloads - {r});
    if saved.Some? && Unchanged(s, s.reloads[r]) then done.(viewing := saved) else done
  }

  predicate Enabled(s: State, step: Step) {
    match step
    case FinishEdit(edit) => edit < |s.edits|
    case Refreshed(r) => r in s.reloads && s.reloads[r].phase == Refreshing
    case Loaded(r, _) => r in s.reloads && s.reloads[r].phase == Loading
    case _ => true
  }

  function Apply(s: State, step: Step): State
    requires Enabled(s, step)
  {
    match step
    case Show(shown) => s.(viewing := shown)
    case BeginEdit(ids) => Begin(s, ids)
    case FinishEdit(edit) => FinishAt(s, edit)
    case StartReload(meeting) => Start(s, meeting)
    case Refreshed(r) => AfterRefresh(s, r)
    case Loaded(r, saved) => AfterLoad(s, r, saved)
  }

  function Next(s: State, step: Step): State {
    if Enabled(s, step) then Apply(s, step) else s
  }

  /** A run takes the enabled ones of its steps. */
  function Run(steps: seq<Step>): State {
    if steps == [] then INITIAL else Next(Run(steps[..|steps| - 1]), steps[|steps| - 1])
  }

  /** The state before step `k`. */
  function Before(steps: seq<Step>, k: nat): State
    requires k <= |steps|
  {
    Run(steps[..k])
  }

  lemma StepAt(steps: seq<Step>, k: nat)
    requires k < |steps|
    ensures Before(steps, k + 1) == Next(Before(steps, k), steps[k])
  {
    assert steps[..k + 1][..k] == steps[..k];
  }

  // ---- Counting ----

  function Times(ids: seq<MeetingId>, id: MeetingId): nat {
    multiset(ids)[id]
  }

  /** How often the open edits list a meeting. */
  function OpenEdits(edits: seq<seq<MeetingId>>, id: MeetingId): nat {
    if edits == [] then 0 else OpenEdits(edits[..|edits| - 1], id) + Times(edits[|edits| - 1], id)
  }

  predicate BeingEdited(s: State, id: MeetingId) {
    exists i :: 0 <= i < |s.edits| && id in s.edits[i]
  }

  lemma LastOf(ids: seq<MeetingId>)
    requires ids != []
    ensures multiset(ids) == multiset(ids[..|ids| - 1]) + multiset{ids[|ids| - 1]}
  {
    assert ids == ids[..|ids| - 1] + [ids[|ids| - 1]];
  }

  lemma {:induction false} RaisedBy(m: map<MeetingId, nat>, ids: seq<MeetingId>, id: MeetingId)
    ensures Get(Raised(m, ids), id) == Get(m, id) + Times(ids, id)
  {
    if ids != [] {
      RaisedBy(m, ids[..|ids| - 1], id);
      LastOf(ids);
    }
  }

  lemma {:induction false} LoweredBy(m: map<MeetingId, nat>, ids: seq<MeetingId>, id: MeetingId)
    ensures var left := Get(m, id) - Times(ids, id);
            Get(Lowered(m, ids), id) == if left < 0 then 0 else left
  {
    if ids != [] {
      LoweredBy(m, ids[..|ids| - 1], id);
      LastOf(ids);
    }
  }

  lemma {:induction false} OpenEditsSplit(xs: seq<seq<MeetingId>>, ys: seq<seq<MeetingId>>, id: MeetingId)
    ensures OpenEdits(xs + ys, id) == OpenEdits(xs, id) + OpenEdits(ys, id)
    decreases |ys|
  {
    if ys == [] {
      assert xs + ys == xs;
    } else {
      assert (xs + ys)[..|xs + ys| - 1] == xs + ys[..|ys| - 1];
      OpenEditsSplit(xs, ys[..|ys| - 1], id);
    }
  }

  lemma OneEdit(ids: seq<MeetingId>, id: MeetingId)
    ensures OpenEdits([ids], id) == Times(ids, id)
  {
    assert [ids][..0] == [];
  }

  lemma FinishedEdit(edits: seq<seq<MeetingId>>, i: nat, id: MeetingId)
    requires i < |edits|
    ensures OpenEdits(edits[..i] + edits[i + 1..], id) == OpenEdits(edits, id) - Times(edits[i], id)
  {
    assert edits == edits[..i] + [edits[i]] + edits[i + 1..];
    OpenEditsSplit(edits[..i], edits[i + 1..], id);
    OpenEditsSplit(edits[..i] + [edits[i]], edits[i + 1..], id);
    OpenEditsSplit(edits[..i], [edits[i]], id);
    OneEdit(edits[i], id);
  }

  /** The open edits that list a meeting. */
  function Listing(edits: seq<seq<MeetingId>>, id: MeetingId): set<nat> {
    set i: nat | i < |edits| && id in edits[i]
  }

  lemma ListingOfFront(edits: seq<seq<MeetingId>>, id: MeetingId)
    requires edits != []
    ensures var n := |edits| - 1;
            Listing(edits, id) == Listing(edits[..n], id) + (if id in edits[n] then {n} else {})
  {
    var n := |edits| - 1;
    forall i: nat ensures i in Listing(edits, id) <==> i in Listing(edits[..n], id) || (i == n && id in edits[n]) {
    }
  }

  /** Without repetitions in an edit's list, this is the number of open edits of the meeting. */
  lemma {:induction false} OpenEditsCountEdits(edits: seq<seq<MeetingId>>, id: MeetingId)
    requires forall ids | ids in edits :: Times(ids, id) <= 1
    ensures OpenEdits(edits, id) == |Listing(edits, id)|
  {
    if edits != [] {
      OpenEditsCountEdits(edits[..|edits| - 1], id);
      ListingOfFront(edits, id);
      assert edits[|edits| - 1] in edits;
    }
  }

  lemma {:induction false} EditedMeansOpen(edits: seq<seq<MeetingId>>, id: MeetingId)
    ensures OpenEdits(edits, id) > 0 <==> exists i :: 0 <= i < |edits| && id in edits[i]
  {
    if edits != [] {
      var n := |edits| - 1;
      EditedMeansOpen(edits[..n], id);
      if OpenEdits(edits[..n], id) > 0 {
        var i :| 0 <= i < n && id in edits[..n][i];
        assert id in edits[i];
      } else {
        assert forall i | 0 <= i < n :: id !in edits[..n][i] && edits[..n][i] == edits[i];
      }
    }
  }

  lemma StepCounts(s: State, step: Step, id: MeetingId)
    requires Get(s.counts, id) == OpenEdits(s.edits, id)
    ensures Get(Next(s, step).counts, id) == OpenEdits(Next(s, step).edits, id)
  {
    if step.BeginEdit? {
      RaisedBy(s.counts, step.meetings, id);
      OpenEditsSplit(s.edits, [step.meetings], id);
      OneEdit(step.meetings, id);
    } else if step.FinishEdit? && Enabled(s, step) {
      LoweredBy(s.counts, s.edits[step.edit], id);
      FinishedEdit(s.edits, step.edit, id);
    }
  }

  /** Over every run, the edit count of a meeting is the number of its open edits. */
  lemma {:induction false} CountIsOpenEdits(steps: seq<Step>, id: MeetingId)
    ensures Get(Run(steps).counts, id) == OpenEdits(Run(steps).edits, id)
    ensures Get(Run(steps).counts, id) > 0 <==> BeingEdited(Run(steps), id)
  {
    if steps != [] {
      CountIsOpenEdits(steps[..|steps| - 1], id);
      StepCounts(Run(steps[..|steps| - 1]), steps[|steps| - 1], id);
    }
    EditedMeansOpen(Run(steps).edits, id);
  }

  // ---- Revisions between two moments ----

  lemma RevisionStep(s: State, step: Step, id: MeetingId)
    ensures Get(s.revisions, id) <= Get(Next(s, step).revisions, id)
    ensures Get(s.revisions, id) == Get(Next(s, step).revisions, id)
            ==> OpenEdits(Next(s, step).edits, id) == OpenEdits(s.edits, id)
    ensures OpenEdits(s.edits, id) == 0 && OpenEdits(Next(s, step).edits, id) == 0
            ==> Get(s.revisions, id) == Get(Next(s, step).revisions, id)
  {
    if step.BeginEdit? {
      RaisedBy(s.revisions, step.meetings, id);
      OpenEditsSplit(s.edits, [step.meetings], id);
      OneEdit(step.meetings, id);
    } else if step.FinishEdit? && Enabled(s, step) {
      RaisedBy(s.revisions, s.edits[step.edit], id);
      FinishedEdit(s.edits, step.edit, id);
    }
  }

  /** No edit of the meeting is open at any moment from `b` to `c`. */
  ghost predicate Undisturbed(steps: seq<Step>, b: nat, c: nat, id: MeetingId)
    requires b <= c <= |steps|
  {
    forall k | b <= k <= c :: !BeingEdited(Before(steps, k), id)
  }

  lemma {:induction false} RevisionsGrow(steps: seq<Step>, b: nat, c: nat, id: MeetingId)
    requires b <= c <= |steps|
    ensures Get(Before(steps, b).revisions, id) <= Get(Before(steps, c).revisions, id)
    decreases c - b
  {
    if b < c {
      StepAt(steps, b);
      RevisionStep(Before(steps, b), steps[b], id);
      RevisionsGrow(steps, b + 1, c, id);
    }
  }

  /** The revision stands still and no edit is open at the end exactly if none was open at any moment. */
  lemma {:induction false} SameRevisionUndisturbed(steps: seq<Step>, b: nat, c: nat, id: MeetingId)
    requires b <= c <= |steps|
    ensures Undisturbed(steps, b, c, id) <==>
            && Get(Before(steps, b).revisions, id) == Get(Before(steps, c).revisions, id)
            && !BeingEdited(Before(steps, c), id)
    decreases c - b
  {
    CountIsOpenEdits(steps[..b], id);
    if b < c {
      StepAt(steps, b);
      CountIsOpenEdits(steps[..b + 1], id);
      RevisionStep(Before(steps, b), steps[b], id);
      RevisionsGrow(steps, b + 1, c, id);
      SameRevisionUndisturbed(steps, b + 1, c, id);
      assert Undisturbed(steps, b, c, id) <==>
             Undisturbed(steps, b + 1, c, id) && !BeingEdited(Before(steps, b), id);
    }
  }

  // ---- A reload from its first read to its commit ----

  /** What reload `r`, started on meeting `m` in state `s`, remembers. */
  function Remembered(s: State, m: MeetingId, phase: Phase): Reload {
    Start(s, m).reloads[s.started].(phase := phase)
  }

  lemma {:induction false} StartedGrows(steps: seq<Step>)
    ensures forall r | r in Run(steps).reloads :: r < Run(steps).started
  {
    if steps != [] {
      StartedGrows(steps[..|steps| - 1]);
    }
  }

  lemma StepKeepsReload(s: State, step: Step, r: nat)
    requires r < s.started
    ensures r < Next(s, step).started
    ensures r in Next(s, step).reloads ==>
              r in s.reloads && Next(s, step).reloads[r] == s.reloads[r].(phase := Next(s, step).reloads[r].phase)
  {
  }

  /** While it is there, a reload remembers what it read at its start. */
  lemma {:induction false} ReloadRemembers(steps: seq<Step>, b: nat, c: nat, m: MeetingId)
    requires b < c <= |steps| && steps[b] == StartReload(m)
    ensures var r := Before(steps, b).started; var s := Before(steps, c);
            && r < s.started
            && (r in s.reloads ==> s.reloads[r] == Remembered(Before(steps, b), m, s.reloads[r].phase))
    decreases c
  {
    StepAt(steps, c - 1);
    if b < c - 1 {
      ReloadRemembers(steps, b, c - 1, m);
      StepKeepsReload(Before(steps, c - 1), steps[c - 1], Before(steps, b).started);
    }
  }

  /** A load that ends shows the saved meeting. */
  predicate Commits(s: State, step: Step) {
    && step.Loaded? && step.saved.Some? && Enabled(s, step) && Unchanged(s, s.reloads[step.loading])
  }

  /**
   Safety, over every run and any number of edits and reloads: a loaded meeting is shown
   only if no edit of it was open at any moment between the first revision read and the
   commit, and the meeting on screen is the very object seen at the first read.
   */
  lemma CommitsAreUndisturbed(steps: seq<Step>, b: nat, c: nat, m: MeetingId, saved: Viewed)
    requires b < c < |steps| && steps[b] == StartReload(m)
    requires steps[c] == Loaded(Before(steps, b).started, Some(saved)) && Commits(Before(steps, c), steps[c])
    ensures Undisturbed(steps, b, c, m)
    ensures Before(steps, b).viewing.Some? && Before(steps, b).viewing.value.meeting == m
    ensures Before(steps, b).viewing == Before(steps, c).viewing
    ensures Before(steps, c + 1).viewing == Some(saved)
  {
    ReloadRemembers(steps, b, c, m);
    CountIsOpenEdits(steps[..c], m);
    SameRevisionUndisturbed(steps, b, c, m);
    StepAt(steps, c);
  }

  /** A reload that passed the first check stays loading until its load ends. */
  lemma {:induction false} LoadingLasts(steps: seq<Step>, a: nat, c: nat, r: nat)
    requires a <= c <= |steps|
    requires r in Before(steps, a).reloads && Before(steps, a).reloads[r].phase == Loading
    requires forall k | a <= k < c :: !(steps[k].Loaded? && steps[k].loading == r)
    ensures r in Before(steps, c).reloads && Before(steps, c).reloads[r] == Before(steps, a).reloads[r]
    decreases c
  {
    if a < c {
      LoadingLasts(steps, a, c - 1, r);
      StepAt(steps, c - 1);
      StartedGrows(steps[..c - 1]);
    }
  }

  /**
   Exactly when a reload that is read at `b`, checked at `a` and loaded at `c` shows what it
   loaded: the same object of that meeting is on screen at all three moments, and no edit of
   the meeting is open at any moment from `b` to `c`.
   */
  lemma CommitsExactly(steps: seq<Step>, b: nat, a: nat, c: nat, m: MeetingId, saved: Viewed)
    requires b < a < c < |steps| && steps[b] == StartReload(m)
    requires steps[a] == Refreshed(Before(steps, b).started) && Enabled(Before(steps, a), steps[a])
    requires steps[c] == Loaded(Before(steps, b).started, Some(saved))
    requires forall k | a < k < c :: !(steps[k].Loaded? && steps[k].loading == Before(steps, b).started)
    ensures Commits(Before(steps, c), steps[c]) <==>
            && Before(steps, b).viewing.Some? && Before(steps, b).viewing.value.meeting == m
            && Before(steps, a).viewing == Before(steps, b).viewing == Before(steps, c).viewing
            && Undisturbed(steps, b, c, m)
  {
    var r := Before(steps, b).started;
    ReloadRemembers(steps, b, a, m);
    SameRevisionUndisturbed(steps, b, a, m);
    SameRevisionUndisturbed(steps, b, c, m);
    CountIsOpenEdits(steps[..a], m);
    CountIsOpenEdits(steps[..c], m);
    StepAt(steps, a);
    if Unchanged(Before(steps, a), Before(steps, a).reloads[r]) {
      LoadingLasts(steps, a + 1, c, r);
      if Undisturbed(steps, b, c, m) {
        UndisturbedPart(steps, b, a, c, m);
      }
    } else {
      DroppedStays(steps, a + 1, c, r);
      if Undisturbed(steps, b, c, m) {
        UndisturbedPart(steps, b, a, c, m);
      }
    }
  }

  lemma UndisturbedPart(steps: seq<Step>, b: nat, a: nat, c: nat, m: MeetingId)
    requires b <= a <= c <= |steps| && Undisturbed(steps, b, c, m)
    ensures Undisturbed(steps, b, a, m) && !BeingEdited(Before(steps, a), m) && !BeingEdited(Before(steps, c), m)
  {
  }

  /** A dropped reload never comes back: numbers are not reused. */
  lemma {:induction false} DroppedStays(steps: seq<Step>, a: nat, c: nat, r: nat)
    requires a <= c <= |steps|
    requires r !in Before(steps, a).reloads && r < Before(steps, a).started
    ensures r !in Before(steps, c).reloads && r < Before(steps, c).started
    decreases c
  {
    if a < c {
      DroppedStays(steps, a, c - 1, r);
      StepAt(steps, c - 1);
    }
  }

  // ---- One check of a reload, read off the run ----

  /** Reload `r` of meeting `m` began with step `b`. */
  predicate StartedAt(steps: seq<Step>, b: nat, r: nat, m: MeetingId) {
    b < |steps| && steps[b] == StartReload(m) && Before(steps, b).started == r
  }

  lemma {:induction false} StartedBy(steps: seq<Step>, r: nat) returns (b: nat)
    requires r in Run(steps).reloads
    ensures StartedAt(steps, b, r, Run(steps).reloads[r].meeting)
    decreases |steps|
  {
    var n := |steps| - 1;
    if r in Run(steps[..n]).reloads {
      StartedGrows(steps[..n]);
      b := StartedBy(steps[..n], r);
      assert steps[..n][..b] == steps[..b];
    } else {
      b := n;
    }
  }

  /** The object seen at `b` is still on screen, and no edit of the meeting was open since. */
  ghost predicate StillFits(steps: seq<Step>, b: nat, m: MeetingId)
    requires b <= |steps|
  {
    && Before(steps, b).viewing.Some? && Before(steps, b).viewing.value.meeting == m
    && Run(steps).viewing == Before(steps, b).viewing
    && Undisturbed(steps, b, |steps|, m)
  }

  /** A check made now passes exactly if the reload still fits. */
  lemma CheckIsExact(steps: seq<Step>, b: nat, r: nat, m: MeetingId)
    requires StartedAt(steps, b, r, m) && r in Run(steps).reloads
    ensures Unchanged(Run(steps), Run(steps).reloads[r]) <==> StillFits(steps, b, m)
  {
    assert steps[..|steps|] == steps;
    ReloadRemembers(steps, b, |steps|, m);
    SameRevisionUndisturbed(steps, b, |steps|, m);
    CountIsOpenEdits(steps, m);
  }

  // ---- The interface state, changed in place ----

  class Interface {
    var viewing: Option<Viewed>
    var meetingMetadataRevisions: map<MeetingId, nat>
    var meetingMetadataEditCounts: map<MeetingId, nat>
    var reloads: map<nat, Reload>
    var started: nat
    ghost var edits: seq<seq<MeetingId>>
    ghost var steps: seq<Step>  // what has happened since the page was loaded

    ghost function View(): State
      reads this
    {
      State(viewing, meetingMetadataRevisions, meetingMetadataEditCounts, edits, reloads, started)
    }

    /** The interface is what the steps so far make of a new one, and counts its open edits. */
    ghost predicate Valid()
      reads this
    {
      && View() == Run(steps)
      && forall id :: MeetingMetadataEditActive(id) <==> BeingEdited(View(), id)
    }

    constructor ()
      ensures Valid() && steps == []
    {
      viewing, meetingMetadataRevisions, meetingMetadataEditCounts := None, map[], map[];
      reloads, started, edits, steps := map[], 0, [], [];
    }

    function MeetingMetadataRevision(id: MeetingId): nat
      reads this
    {
      Get(meetingMetadataRevisions, id)
    }

    predicate MeetingMetadataEditActive(id: MeetingId)
      reads this
    {
      Get(meetingMetadataEditCounts, id) > 0
    }

    ghost method Took(step: Step, before: State)
      requires before == Run(steps) && Enabled(before, step) && View() == Apply(before, step)
      modifies this`steps
      ensures Valid() && steps == old(steps) + [step]
    {
      assert (steps + [step])[..|steps|] == steps;
      steps := steps + [step];
      forall id ensures MeetingMetadataEditActive(id) <==> BeingEdited(View(), id) {
        CountIsOpenEdits(steps, id);
      }
    }

    method Show(shown: Option<Viewed>)
      requires Valid()
      modifies this
      ensures Valid() && steps == old(steps) + [Step.Show(shown)]
    {
      ghost var before := View();
      viewing := shown;
      Took(Step.Show(shown), before);
    }

    method BumpMeetingMetadataRevision(ids: seq<MeetingId>)
      modifies this`meetingMetadataRevisions
      ensures meetingMetadataRevisions == Raised(old(meetingMetadataRevisions), ids)
    {
      assert ids[..0] == [];
      for i := 0 to |ids|
        invariant meetingMetadataRevisions == Raised(old(meetingMetadataRevisions), ids[..i])
      {
        assert ids[..i + 1][..i] == ids[..i];
        meetingMetadataRevisions := meetingMetadataRevisions[ids[i] := MeetingMetadataRevision(ids[i]) + 1];
      }
      assert ids[..|ids|] == ids;
    }

    method BeginMeetingMetadataEdit(ids: seq<MeetingId>)
      requires Valid()
      modifies this
      ensures View() == Begin(old(View()), ids)
      ensures Valid() && steps == old(steps) + [BeginEdit(ids)]
      ensures forall id | id in ids :: MeetingMetadataEditActive(id)
    {
      ghost var before := View();
      BumpMeetingMetadataRevision(ids);
      assert ids[..0] == [];
      for i := 0 to |ids|
        invariant meetingMetadataEditCounts == Raised(old(meetingMetadataEditCounts), ids[..i])
        invariant View() == before.(revisions := Raised(before.revisions, ids), counts := meetingMetadataEditCounts)
        invariant steps == old(steps)
      {
        assert ids[..i + 1][..i] == ids[..i];
        var count := Get(meetingMetadataEditCounts, ids[i]);
        meetingMetadataEditCounts := meetingMetadataEditCounts[ids[i] := count + 1];
      }
      assert ids[..|ids|] == ids;
      edits := edits + [ids];
      Took(BeginEdit(ids), before);
      assert edits[|edits| - 1] == ids;
    }

    method FinishMeetingMetadataEdit(ids: seq<MeetingId>, ghost edit: nat)
      requires Valid() && edit < |edits| && edits[edit] == ids
      modifies this
      ensures View() == FinishAt(old(View()), edit)
      ensures Valid() && steps == old(steps) + [FinishEdit(edit)]
    {
      ghost var before := View();
      BumpMeetingMetadataRevision(ids);
      assert ids[..0] == [];
      for i := 0 to |ids|
        invariant meetingMetadataEditCounts == Lowered(old(meetingMetadataEditCounts), ids[..i])
        invariant View() == before.(revisions := Raised(before.revisions, ids), counts := meetingMetadataEditCounts)
        invariant steps == old(steps)
      {
        assert ids[..i + 1][..i] == ids[..i];
        var count := Get(meetingMetadataEditCounts, ids[i]);
        if count <= 1 {
          meetingMetadataEditCounts := meetingMetadataEditCounts - {ids[i]};
        } else {
          meetingMetadataEditCounts := meetingMetadataEditCounts[ids[i] := count - 1];
        }
      }
      assert ids[..|ids|] == ids;
      edits := edits[..edit] + edits[edit + 1..];
      Took(FinishEdit(edit), before);
    }

    /** From the call to the first `await`; the number of the reload is new. */
    method StartRefresh(meeting: MeetingId) returns (reload: nat)
      requires Valid()
      modifies this
      ensures View() == Start(old(View()), meeting)
      ensures Valid() && steps == old(steps) + [StartReload(meeting)]
      ensures reload in reloads && reload !in old(reloads) && StartedAt(steps, |old(steps)|, reload, meeting)
    {
      ghost var before := View();
      StartedGrows(steps);
      var seen := if viewing.Some? && viewing.value.meeting == meeting then viewing else None;
      reload := started;
      reloads := reloads[reload := Reload(meeting, seen, MeetingMetadataRevision(meeting), Refreshing)];
      started := started + 1;
      Took(StartReload(meeting), before);
      assert steps[..|old(steps)|] == old(steps);
    }

    method Changed(r: Reload) returns (changed: bool)
      ensures changed == !Unchanged(View(), r)
    {
      if r.seen.None? || viewing != r.seen {
        return true;
      }
      return MeetingMetadataEditActive(r.meeting) || MeetingMetadataRevision(r.meeting) != r.revision;
    }

    /** Between the two `await`s: goes on exactly if the reload still fits what is on screen. */
    method ContinueRefresh(reload: nat) returns (ghost b: nat)
      requires Valid() && reload in reloads && reloads[reload].phase == Refreshing
      modifies this
      ensures View() == AfterRefresh(old(View()), reload)
      ensures Valid() && steps == old(steps) + [Refreshed(reload)]
      ensures StartedAt(old(steps), b, reload, old(reloads)[reload].meeting)
      ensures reload in reloads <==> StillFits(old(steps), b, old(reloads)[reload].meeting)
    {
      ghost var before := View();
      b := StartedBy(steps, reload);
      CheckIsExact(steps, b, reload, reloads[reload].meeting);
      var changed := Changed(reloads[reload]);
      if changed {
        reloads := reloads - {reload};
      } else {
        reloads := reloads[reload := reloads[reload].(phase := Loading)];
      }
      Took(Refreshed(reload), before);
    }

    /**
     After the second `await`; `None` is a failed load. What was loaded is shown exactly if
     the object seen at the start is still on screen and no edit was open since.
     */
    method FinishRefresh(reload: nat, saved: Option<Viewed>) returns (shown: bool, ghost b: nat)
      requires Valid() && reload in reloads && reloads[reload].phase == Loading
      modifies this
      ensures View() == AfterLoad(old(View()), reload, saved)
      ensures Valid() && steps == old(steps) + [Loaded(reload, saved)]
      ensures StartedAt(old(steps), b, reload, old(reloads)[reload].meeting)
      ensures shown <==> saved.Some? && StillFits(old(steps), b, old(reloads)[reload].meeting)
      ensures viewing == if shown then saved else old(viewing)
    {
      ghost var before := View();
      b := StartedBy(steps, reload);
      CheckIsExact(steps, b, reload, reloads[reload].meeting);
      var r := reloads[reload];
      reloads := reloads - {reload};
      shown := false;
      if saved.Some? {
        var changed := Changed(r);
        shown := !changed;
        if shown {
          viewing := saved;
        }
      }
      Took(Loaded(reload, saved), before);
    }
  }
}
