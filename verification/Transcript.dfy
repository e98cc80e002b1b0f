/**
 The ordered transcript: `crates/kuali-core/src/meeting.rs` and the list the interface keeps
 of it in `src/app.js`. Of an utterance only the fields these functions read are kept.
 */
module Transcript {
  import opened Wrappers

  type SpeakerId = nat

  datatype Utterance = Utterance(id: string, speaker: SpeakerId, start: nat, end: nat, text: string)

  datatype Speaker = Speaker(user: SpeakerId, name: string)

  // ---- Chronological insertion ----

  /** One past the last utterance that starts no later; 0 if there is none. */
  function InsertionPoint(list: seq<Utterance>, start: nat): (p: nat)
    ensures p <= |list|
    ensures p > 0 ==> list[p - 1].start <= start
    ensures forall i | p <= i < |list| :: start < list[i].start
  {
    if list == [] then 0
    else if list[|list| - 1].start <= start then |list|
    else InsertionPoint(list[..|list| - 1], start)
  }

  function Push(list: seq<Utterance>, u: Utterance): seq<Utterance> {
    var p := InsertionPoint(list, u.start);
    list[..p] + [u] + list[p..]
  }

  function PushAll(arrivals: seq<Utterance>): seq<Utterance> {
    if arrivals == [] then [] else Push(PushAll(arrivals[..|arrivals| - 1]), arrivals[|arrivals| - 1])
  }

  predicate Sorted(list: seq<Utterance>) {
    forall i, j | 0 <= i < j < |list| :: list[i].start <= list[j].start
  }

  /** The utterances with one start, in their order. */
  function At(list: seq<Utterance>, start: nat): seq<Utterance> {
    if list == [] then []
    else At(list[..|list| - 1], start) + if list[|list| - 1].start == start then [list[|list| - 1]] else []
  }

  lemma {:induction false} AtJoin(xs: seq<Utterance>, ys: seq<Utterance>, start: nat)
    ensures At(xs + ys, start) == At(xs, start) + At(ys, start)
    decreases |ys|
  {
    if ys == [] {
      assert xs + ys == xs;
    } else {
      assert (xs + ys)[..|xs + ys| - 1] == xs + ys[..|ys| - 1];
      AtJoin(xs, ys[..|ys| - 1], start);
    }
  }

  lemma {:induction false} NoneAt(list: seq<Utterance>, start: nat)
    requires forall i | 0 <= i < |list| :: list[i].start != start
    ensures At(list, start) == []
  {
    if list != [] {
      NoneAt(list[..|list| - 1], start);
    }
  }

  lemma PushKeepsSorted(list: seq<Utterance>, u: Utterance)
    requires Sorted(list)
    ensures Sorted(Push(list, u))
  {
    var p := InsertionPoint(list, u.start);
    forall i | 0 <= i < p ensures list[i].start <= u.start {
      assert list[i].start <= list[p - 1].start;
    }
  }

  /** A push puts the utterance after all those with its start, and moves no other past an equal one. */
  lemma PushAt(list: seq<Utterance>, u: Utterance, start: nat)
    ensures At(Push(list, u), start) == At(list, start) + if u.start == start then [u] else []
  {
    var p := InsertionPoint(list, u.start);
    InsertAt(list[..p], u, list[p..], start);
    assert list == list[..p] + list[p..];
  }

  lemma InsertAt(before: seq<Utterance>, u: Utterance, after: seq<Utterance>, start: nat)
    requires forall i | 0 <= i < |after| :: u.start < after[i].start
    ensures At(before + [u] + after, start) == At(before + after, start) + if u.start == start then [u] else []
  {
    var early, late := At(before, start), At(after, start);
    AtJoin(before + [u], after, start);
    AtJoin(before, [u], start);
    AtJoin(before, after, start);
    AtOne(u, start);
    if u.start == start {
      NoneAt(after, start);
      assert early + [u] + [] == early + [] + [u];
    } else {
      assert early + [] + late == early + late + [];
    }
  }

  lemma AtOne(u: Utterance, start: nat)
    ensures At([u], start) == if u.start == start then [u] else []
  {
    assert [u][..0] == [];
  }

  /** In whatever order utterances arrive, the transcript is sorted, and equal starts stay in arrival order. */
  lemma {:induction false} PushingSortsStably(arrivals: seq<Utterance>)
    ensures Sorted(PushAll(arrivals))
    ensures forall start :: At(PushAll(arrivals), start) == At(arrivals, start)
  {
    if arrivals != [] {
      var front, last := arrivals[..|arrivals| - 1], arrivals[|arrivals| - 1];
      PushingSortsStably(front);
      PushKeepsSorted(PushAll(front), last);
      forall start ensures At(PushAll(arrivals), start) == At(arrivals, start) {
        PushAt(PushAll(front), last, start);
      }
    }
  }

  lemma {:induction false} AtNonempty(list: seq<Utterance>, i: nat)
    requires i < |list|
    ensures list[i] in At(list, list[i].start)
  {
    if i < |list| - 1 {
      AtNonempty(list[..|list| - 1], i);
      assert list[..|list| - 1][i] == list[i];
    }
  }

  lemma {:induction false} AtMembers(list: seq<Utterance>, start: nat)
    ensures forall u | u in At(list, start) :: u in list && u.start == start
  {
    if list != [] {
      AtMembers(list[..|list| - 1], start);
    }
  }

  lemma LatestStarts(xs: seq<Utterance>, ys: seq<Utterance>)
    requires xs != [] && Sorted(ys) && At(xs, xs[|xs| - 1].start) == At(ys, xs[|xs| - 1].start)
    ensures ys != [] && xs[|xs| - 1].start <= ys[|ys| - 1].start
  {
    var u := xs[|xs| - 1];
    AtNonempty(xs, |xs| - 1);
    AtMembers(ys, u.start);
    assert u in ys;
  }

  /** The stable sort is one list: sorted, with equal starts in the given order. */
  lemma {:induction false} StableSortIsUnique(xs: seq<Utterance>, ys: seq<Utterance>)
    requires Sorted(xs) && Sorted(ys) && forall start :: At(xs, start) == At(ys, start)
    ensures xs == ys
  {
    if xs == [] {
      if ys != [] {
        LatestStarts(ys, xs);
      }
    } else {
      LatestStarts(xs, ys);
      LatestStarts(ys, xs);
      var u, v := xs[|xs| - 1], ys[|ys| - 1];
      var front, back := xs[..|xs| - 1], ys[..|ys| - 1];
      var ats := At(xs, u.start);
      assert ats[|ats| - 1] == u && ats[|ats| - 1] == v;
      forall start ensures At(front, start) == At(back, start) {
        assert At(xs, start) == At(ys, start);
        assert At(front, start) == if start == u.start then At(xs, start)[..|At(xs, start)| - 1] else At(xs, start);
        assert At(back, start) == if start == u.start then At(ys, start)[..|At(ys, start)| - 1] else At(ys, start);
      }
      StableSortIsUnique(front, back);
      assert xs == front + [u] && ys == back + [v];
    }
  }

  // ---- Replacing by id ----

  /** The first utterance with an id; the length of the list if there is none. */
  function IndexOf(list: seq<Utterance>, id: string): (i: nat)
    ensures i <= |list|
    ensures i < |list| ==> list[i].id == id
    ensures forall k | 0 <= k < i :: list[k].id != id
  {
    if list == [] then 0 else if list[0].id == id then 0 else 1 + IndexOf(list[1..], id)
  }

  /** The saved transcript: a known id is replaced where it stands. */
  function Upsert(list: seq<Utterance>, u: Utterance): seq<Utterance> {
    var i := IndexOf(list, u.id);
    if i < |list| then list[i := u] else Push(list, u)
  }

  function Without(list: seq<Utterance>, i: nat): (rest: seq<Utterance>)
    requires i < |list|
    ensures |rest| == |list| - 1
    ensures forall k | 0 <= k < |rest| :: rest[k] == if k < i then list[k] else list[k + 1]
  {
    list[..i] + list[i + 1..]
  }

  /** The interface: a known id is taken out and inserted anew. */
  function UpsertShown(list: seq<Utterance>, u: Utterance): seq<Utterance> {
    var i := IndexOf(list, u.id);
    Push(if i < |list| then Without(list, i) else list, u)
  }

  function UpsertAll(arrivals: seq<Utterance>): seq<Utterance> {
    if arrivals == [] then [] else Upsert(UpsertAll(arrivals[..|arrivals| - 1]), arrivals[|arrivals| - 1])
  }

  function UpsertAllShown(arrivals: seq<Utterance>): seq<Utterance> {
    if arrivals == [] then [] else UpsertShown(UpsertAllShown(arrivals[..|arrivals| - 1]), arrivals[|arrivals| - 1])
  }

  predicate DistinctIds(list: seq<Utterance>) {
    forall i, j | 0 <= i < j < |list| :: list[i].id != list[j].id
  }

  /** `u` fits between the neighbours of `i`. */
  predicate Fits(list: seq<Utterance>, i: nat, u: Utterance)
    requires i < |list|
  {
    && (i > 0 ==> list[i - 1].start <= u.start)
    && (i + 1 < |list| ==> u.start <= list[i + 1].start)
  }

  /** Exactly when a replacement keeps the saved transcript in order. */
  lemma ReplacingKeepsOrderExactly(list: seq<Utterance>, u: Utterance)
    requires Sorted(list) && IndexOf(list, u.id) < |list|
    ensures Sorted(Upsert(list, u)) <==> Fits(list, IndexOf(list, u.id), u)
  {
    SortedReplacement(list, IndexOf(list, u.id), u);
  }

  lemma SortedReplacement(list: seq<Utterance>, i: nat, u: Utterance)
    requires Sorted(list) && i < |list|
    ensures Sorted(list[i := u]) <==> Fits(list, i, u)
  {
    var replaced := list[i := u];
    if Fits(list, i, u) {
      forall j, k | 0 <= j < k < |list| ensures replaced[j].start <= replaced[k].start {
        if k == i {
          assert list[j].start <= list[i - 1].start;
        } else if j == i {
          assert list[i + 1].start <= list[k].start;
        }
      }
    } else if i > 0 && u.start < list[i - 1].start {
      assert replaced[i - 1].start > replaced[i].start;
    } else {
      assert replaced[i].start > replaced[i + 1].start;
    }
  }

  /** The interface's list is in order after every upsert. */
  lemma ShownStaysSorted(list: seq<Utterance>, u: Utterance)
    requires Sorted(list)
    ensures Sorted(UpsertShown(list, u))
  {
    var i := IndexOf(list, u.id);
    PushKeepsSorted(if i < |list| then Without(list, i) else list, u);
  }

  /** Exactly which place an insertion into a sorted list takes. */
  lemma InsertionPointIs(list: seq<Utterance>, start: nat, i: nat)
    requires Sorted(list) && i <= |list|
    ensures InsertionPoint(list, start) == i <==>
            (i > 0 ==> list[i - 1].start <= start) && (i < |list| ==> start < list[i].start)
  {
    var p := InsertionPoint(list, start);
    if p < i {
      assert start < list[i - 1].start;
    } else if p > i {
      assert list[i].start <= list[p - 1].start;
    }
  }

  /** Exactly when an utterance taken out goes back to its own place. */
  lemma BackInPlace(list: seq<Utterance>, i: nat, u: Utterance)
    requires Sorted(list) && i < |list|
    ensures InsertionPoint(Without(list, i), u.start) == i <==>
            Fits(list, i, u) && (i + 1 < |list| ==> u.start < list[i + 1].start)
  {
    InsertionPointIs(Without(list, i), u.start, i);
  }

  lemma PlaceTells(list: seq<Utterance>, i: nat, u: Utterance, p: nat)
    requires DistinctIds(list) && i < |list| && list[i].id == u.id && p < |list|
    ensures var rest := Without(list, i);
            rest[..p] + [u] + rest[p..] == list[i := u] <==> p == i
  {
    var rest := Without(list, i);
    if p == i {
      assert rest[..p] + [u] + rest[p..] == list[i := u];
    } else {
      assert (rest[..p] + [u] + rest[p..])[p] == u;
      assert list[i := u][p].id == list[p].id != list[i].id;
    }
  }

  /**
   Exactly when a replacement gives the same list on both sides: the utterance fits, and the
   next one starts strictly later.
   */
  lemma ReplacingAgreesExactly(list: seq<Utterance>, u: Utterance)
    requires Sorted(list) && DistinctIds(list) && IndexOf(list, u.id) < |list|
    ensures var i := IndexOf(list, u.id);
            Upsert(list, u) == UpsertShown(list, u) <==>
            Fits(list, i, u) && (i + 1 < |list| ==> u.start < list[i + 1].start)
  {
    var i := IndexOf(list, u.id);
    BackInPlace(list, i, u);
    PlaceTells(list, i, u, InsertionPoint(Without(list, i), u.start));
  }

  /** An utterance sent again, unchanged, passes the next one of the same start in the interface, and stays in the saved transcript. */
  lemma EqualStartsDisagree(list: seq<Utterance>, i: nat)
    requires Sorted(list) && DistinctIds(list) && i + 1 < |list| && list[i].start == list[i + 1].start
    ensures Upsert(list, list[i]) == list && UpsertShown(list, list[i]) != list
  {
    IndexOfOwn(list, i);
    assert list[i := list[i]] == list;
    ReplacingAgreesExactly(list, list[i]);
  }

  lemma IndexOfOwn(list: seq<Utterance>, i: nat)
    requires DistinctIds(list) && i < |list|
    ensures IndexOf(list, list[i].id) == i
  {
  }

  lemma PushMembers(list: seq<Utterance>, u: Utterance)
    ensures forall v :: v in Push(list, u) <==> v in list || v == u
  {
    var p := InsertionPoint(list, u.start);
    assert list == list[..p] + list[p..];
  }

  lemma UpsertMembers(list: seq<Utterance>, u: Utterance)
    requires DistinctIds(list)
    ensures DistinctIds(Upsert(list, u))
    ensures forall v :: v in Upsert(list, u) <==> v == u || (v in list && v.id != u.id)
  {
    var i := IndexOf(list, u.id);
    if i < |list| {
      forall v | v in list && v.id != u.id ensures v in list[i := u] {
        var k :| 0 <= k < |list| && list[k] == v;
        assert list[i := u][k] == v;
      }
      assert list[i := u][i] == u;
    } else {
      PushMembers(list, u);
    }
  }

  lemma DistinctPush(list: seq<Utterance>, u: Utterance)
    requires DistinctIds(list) && forall v | v in list :: v.id != u.id
    ensures DistinctIds(Push(list, u))
  {
  }

  lemma ShownMembers(list: seq<Utterance>, u: Utterance)
    requires DistinctIds(list)
    ensures DistinctIds(UpsertShown(list, u))
    ensures forall v :: v in UpsertShown(list, u) <==> v == u || (v in list && v.id != u.id)
  {
    var i := IndexOf(list, u.id);
    if i < |list| {
      WithoutMembers(list, i);
      DistinctPush(Without(list, i), u);
      PushMembers(Without(list, i), u);
    } else {
      DistinctPush(list, u);
      PushMembers(list, u);
    }
  }

  lemma WithoutMembers(list: seq<Utterance>, i: nat)
    requires i < |list| && DistinctIds(list)
    ensures DistinctIds(Without(list, i))
    ensures forall v :: v in Without(list, i) <==> v in list && v.id != list[i].id
  {
    var rest := Without(list, i);
    forall v | v in list && v.id != list[i].id ensures v in rest {
      var k :| 0 <= k < |list| && list[k] == v;
      assert rest[if k < i then k else k - 1] == v;
    }
    forall v | v in rest ensures v in list && v.id != list[i].id {
      var k :| 0 <= k < |rest| && rest[k] == v;
      assert list[if k < i then k else k + 1] == v;
    }
  }

  /** The last of the utterances that arrived under its id. */
  predicate LastVersion(arrivals: seq<Utterance>, u: Utterance) {
    exists k | 0 <= k < |arrivals| && arrivals[k] == u :: forall m | k < m < |arrivals| :: arrivals[m].id != u.id
  }

  lemma VersionsGrow(arrivals: seq<Utterance>, u: Utterance)
    requires arrivals != []
    ensures var front, last := arrivals[..|arrivals| - 1], arrivals[|arrivals| - 1];
            LastVersion(arrivals, u) <==> u == last || (LastVersion(front, u) && u.id != last.id)
  {
    var front, last := arrivals[..|arrivals| - 1], arrivals[|arrivals| - 1];
    if k :| 0 <= k < |front| && front[k] == u && forall m | k < m < |front| :: front[m].id != u.id {
      assert arrivals[k] == u;
      assert u.id != last.id ==> forall m | k < m < |arrivals| :: arrivals[m].id != u.id;
    }
    if k :| 0 <= k < |arrivals| && arrivals[k] == u && forall m | k < m < |arrivals| :: arrivals[m].id != u.id {
      if k < |front| {
        assert front[k] == u && arrivals[|front|].id != u.id;
      }
    }
  }

  /** After every run of upserts, the transcript holds exactly the last version of every utterance, once. */
  lemma {:induction false} LastVersionsAreSaved(arrivals: seq<Utterance>)
    ensures DistinctIds(UpsertAll(arrivals))
    ensures forall u :: u in UpsertAll(arrivals) <==> LastVersion(arrivals, u)
  {
    if arrivals != [] {
      var front, last := arrivals[..|arrivals| - 1], arrivals[|arrivals| - 1];
      LastVersionsAreSaved(front);
      UpsertMembers(UpsertAll(front), last);
      forall u ensures u in UpsertAll(arrivals) <==> LastVersion(arrivals, u) {
        VersionsGrow(arrivals, u);
      }
    }
  }

  /** And so does the interface. */
  lemma {:induction false} LastVersionsAreShown(arrivals: seq<Utterance>)
    ensures DistinctIds(UpsertAllShown(arrivals))
    ensures forall u :: u in UpsertAllShown(arrivals) <==> LastVersion(arrivals, u)
  {
    if arrivals != [] {
      var front, last := arrivals[..|arrivals| - 1], arrivals[|arrivals| - 1];
      LastVersionsAreShown(front);
      ShownMembers(UpsertAllShown(front), last);
      forall u ensures u in UpsertAllShown(arrivals) <==> LastVersion(arrivals, u) {
        VersionsGrow(arrivals, u);
      }
    }
  }

  predicate KeepsStart(list: seq<Utterance>, u: Utterance) {
    forall v | v in list && v.id == u.id :: v.start == u.start
  }

  /** If re-sent ids keep their start, the saved transcript is in order after every run of upserts. */
  lemma {:induction false} UpsertsStaySorted(arrivals: seq<Utterance>)
    requires forall i | 0 <= i < |arrivals| :: KeepsStart(arrivals[..i], arrivals[i])
    ensures Sorted(UpsertAll(arrivals))
  {
    if arrivals != [] {
      var front, last := arrivals[..|arrivals| - 1], arrivals[|arrivals| - 1];
      forall i | 0 <= i < |front| ensures KeepsStart(front[..i], front[i]) {
        assert front[..i] == arrivals[..i];
      }
      UpsertsStaySorted(front);
      LastVersionsAreSaved(front);
      var list := UpsertAll(front);
      if IndexOf(list, last.id) < |list| {
        assert list[IndexOf(list, last.id)] in list;
        ReplacingKeepsOrderExactly(list, last);
      } else {
        PushKeepsSorted(list, last);
      }
    }
  }

  /** No other id has the start. */
  predicate OwnStart(list: seq<Utterance>, u: Utterance) {
    forall v | v in list && v.start == u.start :: v.id == u.id
  }

  lemma UpsertAgrees(list: seq<Utterance>, u: Utterance)
    requires Sorted(list) && DistinctIds(list) && KeepsStart(list, u) && OwnStart(list, u)
    ensures Upsert(list, u) == UpsertShown(list, u)
  {
    var i := IndexOf(list, u.id);
    if i < |list| {
      SameStartFits(list, i, u);
      ReplacingAgreesExactly(list, u);
    }
  }

  lemma SameStartFits(list: seq<Utterance>, i: nat, u: Utterance)
    requires Sorted(list) && DistinctIds(list) && KeepsStart(list, u) && OwnStart(list, u)
    requires i < |list| && list[i].id == u.id
    ensures Fits(list, i, u) && (i + 1 < |list| ==> u.start < list[i + 1].start)
  {
    assert list[i] in list && list[i].start == u.start;
    if i + 1 < |list| {
      var next := list[i + 1];
      assert next in list && next.id != list[i].id;
      assert next.start != u.start;
    }
  }

  /**
   With one start per id, and no start shared by two ids, the interface shows exactly the
   saved transcript after every run of upserts.
   */
  lemma {:induction false} ShownIsSaved(arrivals: seq<Utterance>)
    requires forall i | 0 <= i < |arrivals| :: KeepsStart(arrivals[..i], arrivals[i]) && OwnStart(arrivals[..i], arrivals[i])
    ensures UpsertAll(arrivals) == UpsertAllShown(arrivals)
  {
    if arrivals != [] {
      var front, last := arrivals[..|arrivals| - 1], arrivals[|arrivals| - 1];
      forall i | 0 <= i < |front| ensures KeepsStart(front[..i], front[i]) && OwnStart(front[..i], front[i]) {
        assert front[..i] == arrivals[..i];
      }
      ShownIsSaved(front);
      LastVersionsAreSaved(front);
      UpsertsStaySorted(front);
      UpsertAgrees(UpsertAll(front), last);
    }
  }
}
