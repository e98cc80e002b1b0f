/**
 The transcript as text: adjacent turns of one speaker merged, each with its time and name.
 `Meeting` and `ShownTranscript` are the objects whose lists the program changes in place.
 */
module TranscriptText {
  import opened Text
  import opened Transcript
  import opened Wrappers

  // ---- Timestamps ----

  function Digit(n: nat): char
    requires n < 10
  {
    '0' + n as char
  }

  function Decimal(n: nat): string {
    if n < 10 then [Digit(n)] else Decimal(n / 10) + [Digit(n % 10)]
  }

  function Pad2(n: nat): string {
    if n < 10 then "0" + Decimal(n) else Decimal(n)
  }

  function FormatTimestamp(ms: nat): string {
    var total := ms / 1000;
    var clock := Pad2(total % 3600 / 60) + ":" + Pad2(total % 60);
    if total / 3600 > 0 then Pad2(total / 3600) + ":" + clock else clock
  }

  /** The value read so far, and that of the last field; a colon multiplies by 60. */
  function ReadFields(s: string): (nat, nat) {
    if s == [] then (0, 0)
    else
      var (before, field) := ReadFields(s[..|s| - 1]);
      var c := s[|s| - 1];
      if c == ':' then (60 * (before + field), 0)
      else if '0' <= c <= '9' then (before, 10 * field + (c - '0') as nat)
      else (before, field)
  }

  function ReadTimestamp(s: string): nat {
    ReadFields(s).0 + ReadFields(s).1
  }

  lemma {:induction false} ReadDecimal(s: string, n: nat)
    requires ReadFields(s).1 == 0
    ensures ReadFields(s + Decimal(n)) == (ReadFields(s).0, n)
    decreases n
  {
    var text := s + Decimal(n);
    if n < 10 {
      assert text[..|text| - 1] == s;
    } else {
      ReadDecimal(s, n / 10);
      assert text[..|text| - 1] == s + Decimal(n / 10);
    }
  }

  lemma ReadPad2(s: string, n: nat)
    requires ReadFields(s).1 == 0
    ensures ReadFields(s + Pad2(n)) == (ReadFields(s).0, n)
  {
    if n < 10 {
      assert (s + "0")[..|s|] == s;
      ReadDecimal(s + "0", n);
      assert s + "0" + Decimal(n) == s + Pad2(n);
    } else {
      ReadDecimal(s, n);
    }
  }

  lemma ReadColon(s: string)
    ensures ReadFields(s + ":") == (60 * ReadTimestamp(s), 0)
  {
    assert (s + ":")[..|s|] == s;
  }

  function Hours(h: nat): string {
    if h > 0 then Pad2(h) + ":" else ""
  }

  lemma ReadHours(h: nat)
    ensures ReadFields(Hours(h)) == (60 * h, 0)
  {
    if h > 0 {
      ReadPad2("", h);
      assert "" + Pad2(h) == Pad2(h);
      ReadColon(Pad2(h));
    }
  }

  lemma ReadClock(h: nat, m: nat, s: nat)
    ensures ReadTimestamp(Hours(h) + Pad2(m) + ":" + Pad2(s)) == (60 * h + m) * 60 + s
  {
    ReadHours(h);
    ReadPad2(Hours(h), m);
    ReadColon(Hours(h) + Pad2(m));
    ReadPad2(Hours(h) + Pad2(m) + ":", s);
  }

  lemma FormatsHours(ms: nat)
    ensures var total := ms / 1000;
            FormatTimestamp(ms) == Hours(total / 3600) + Pad2(total % 3600 / 60) + ":" + Pad2(total % 60)
  {
    var total := ms / 1000;
    var h, m, s := Pad2(total / 3600), Pad2(total % 3600 / 60), Pad2(total % 60);
    assert h + ":" + (m + ":" + s) == h + ":" + m + ":" + s;
    assert "" + m + ":" + s == m + ":" + s;
  }

  lemma Sexagesimal(total: nat)
    ensures (60 * (total / 3600) + total % 3600 / 60) * 60 + total % 60 == total
  {
  }

  /** A timestamp tells the whole seconds. */
  lemma TimestampRoundTrip(ms: nat)
    ensures ReadTimestamp(FormatTimestamp(ms)) == ms / 1000
  {
    var total := ms / 1000;
    FormatsHours(ms);
    ReadClock(total / 3600, total % 3600 / 60, total % 60);
    Sexagesimal(total);
  }

  // ---- Speakers ----

  function SpeakerIndex(speakers: seq<Speaker>, id: SpeakerId): (i: nat)
    ensures i <= |speakers|
    ensures i < |speakers| ==> speakers[i].user == id
    ensures forall k | 0 <= k < i :: speakers[k].user != id
  {
    if speakers == [] then 0 else if speakers[0].user == id then 0 else 1 + SpeakerIndex(speakers[1..], id)
  }

  function SpeakerName(speakers: seq<Speaker>, id: SpeakerId): string {
    var i := SpeakerIndex(speakers, id);
    if i < |speakers| then speakers[i].name else "Desconocido (" + Decimal(id) + ")"
  }

  function UpsertedSpeaker(speakers: seq<Speaker>, s: Speaker): seq<Speaker> {
    var i := SpeakerIndex(speakers, s.user);
    if i < |speakers| then speakers[i := s] else speakers + [s]
  }

  lemma SpeakerFoundAt(speakers: seq<Speaker>, id: SpeakerId, i: nat)
    requires i < |speakers| && speakers[i].user == id && forall k | 0 <= k < i :: speakers[k].user != id
    ensures SpeakerIndex(speakers, id) == i
  {
  }

  /** An upsert names its own speaker, and leaves every other name. */
  lemma UpsertNames(speakers: seq<Speaker>, s: Speaker, id: SpeakerId)
    ensures SpeakerName(UpsertedSpeaker(speakers, s), id) == if id == s.user then s.name else SpeakerName(speakers, id)
  {
    var after := UpsertedSpeaker(speakers, s);
    var i, k := SpeakerIndex(speakers, s.user), SpeakerIndex(speakers, id);
    if id == s.user {
      SpeakerFoundAt(after, id, i);
    } else if k < |speakers| {
      SpeakerFoundAt(after, id, k);
    } else {
      var at := SpeakerIndex(after, id);
      assert at == |after|;
    }
  }

  // ---- Turns ----

  /** Adjacent utterances of one speaker, merged. */
  function Runs(us: seq<Utterance>): (r: seq<seq<Utterance>>)
    ensures forall i | 0 <= i < |r| :: r[i] != []
  {
    if us == [] then []
    else
      var runs, u := Runs(us[..|us| - 1]), us[|us| - 1];
      if runs != [] && runs[|runs| - 1][0].speaker == u.speaker
      then runs[..|runs| - 1] + [runs[|runs| - 1] + [u]]
      else runs + [[u]]
  }

  function Flatten(runs: seq<seq<Utterance>>): seq<Utterance> {
    if runs == [] then [] else Flatten(runs[..|runs| - 1]) + runs[|runs| - 1]
  }

  predicate OneSpeaker(run: seq<Utterance>) {
    run != [] && forall u | u in run :: u.speaker == run[0].speaker
  }

  predicate SameSpeaker(a: seq<Utterance>, b: seq<Utterance>) {
    a != [] && b != [] && a[0].speaker == b[0].speaker
  }

  /** No two neighbours have the same speaker. */
  predicate Alternates(runs: seq<seq<Utterance>>) {
    |runs| > 1 ==> Alternates(runs[..|runs| - 1]) && !SameSpeaker(runs[|runs| - 2], runs[|runs| - 1])
  }

  /** `runs` cuts `us` into turns of one speaker each, and no two neighbours could be one turn. */
  predicate MaximalRuns(runs: seq<seq<Utterance>>, us: seq<Utterance>) {
    && Flatten(runs) == us
    && (forall run | run in runs :: OneSpeaker(run))
    && Alternates(runs)
  }

  lemma FlattenSnoc(runs: seq<seq<Utterance>>, run: seq<Utterance>)
    ensures Flatten(runs + [run]) == Flatten(runs) + run
  {
    assert (runs + [run])[..|runs|] == runs;
  }

  lemma LastRunGrows(front: seq<Utterance>, u: Utterance, others: seq<seq<Utterance>>, part: seq<Utterance>)
    requires Runs(front) == others + [part] && part != [] && part[0].speaker == u.speaker
    ensures Runs(front + [u]) == others + [part + [u]]
  {
    assert (front + [u])[..|front|] == front;
    assert (others + [part])[..|others|] == others;
  }

  lemma RunBegins(front: seq<Utterance>, u: Utterance)
    requires var runs := Runs(front);
             runs != [] ==> runs[|runs| - 1] != [] && runs[|runs| - 1][0].speaker != u.speaker
    ensures Runs(front + [u]) == Runs(front) + [[u]]
  {
    assert (front + [u])[..|front|] == front;
  }

  lemma MoreRuns(runs: seq<seq<Utterance>>, us: seq<Utterance>, u: Utterance)
    requires MaximalRuns(runs, us) && (runs != [] ==> !SameSpeaker(runs[|runs| - 1], [u]))
    ensures MaximalRuns(runs + [[u]], us + [u])
  {
    FlattenSnoc(runs, [u]);
    assert (runs + [[u]])[..|runs|] == runs;
  }

  lemma LongerLastRun(others: seq<seq<Utterance>>, part: seq<Utterance>, us: seq<Utterance>, u: Utterance)
    requires MaximalRuns(others + [part], us) && part != [] && part[0].speaker == u.speaker
    ensures MaximalRuns(others + [part + [u]], us + [u])
  {
    FlattenSnoc(others, part);
    FlattenSnoc(others, part + [u]);
    var before, after := others + [part], others + [part + [u]];
    assert before[..|others|] == others && after[..|others|] == others;
    assert part in before && OneSpeaker(part);
    forall run | run in after ensures OneSpeaker(run) {
      assert run in before || run == part + [u];
    }
    AlternatesAlike(others, part, part + [u]);
  }

  lemma AlternatesAlike(others: seq<seq<Utterance>>, a: seq<Utterance>, b: seq<Utterance>)
    requires forall run | run in others :: OneSpeaker(run)
    requires OneSpeaker(a) && OneSpeaker(b) && a[0].speaker == b[0].speaker
    ensures Alternates(others + [a]) <==> Alternates(others + [b])
  {
    assert (others + [a])[..|others|] == others && (others + [b])[..|others|] == others;
  }

  lemma {:induction false} RunsAreMaximal(us: seq<Utterance>)
    ensures MaximalRuns(Runs(us), us)
  {
    if us != [] {
      var front, u := us[..|us| - 1], us[|us| - 1];
      RunsAreMaximal(front);
      var runs: seq<seq<Utterance>> := Runs(front);
      assert us == front + [u];
      if runs != [] && SameSpeaker(runs[|runs| - 1], [u]) {
        var others, last := runs[..|runs| - 1], runs[|runs| - 1];
        assert runs == others + [last];
        LastRunGrows(front, u, others, last);
        LongerLastRun(others, last, front, u);
      } else {
        assert runs != [] ==> OneSpeaker(runs[|runs| - 1]);
        RunBegins(front, u);
        MoreRuns(runs, front, u);
      }
    }
  }

  /** The turns are the only such cut. */
  lemma {:induction false} OnlyMaximalRuns(runs: seq<seq<Utterance>>, us: seq<Utterance>)
    requires MaximalRuns(runs, us)
    ensures runs == Runs(us)
    decreases |us|
  {
    if runs != [] {
      var others, last := runs[..|runs| - 1], runs[|runs| - 1];
      assert last in runs && OneSpeaker(last);
      var u, part := last[|last| - 1], last[..|last| - 1];
      assert runs == others + [last] && last == part + [u];
      FlattenSnoc(others, last);
      assert Flatten(others) + last == Flatten(others) + part + [u];
      if part == [] {
        OnlyMaximalRuns(others, Flatten(others));
        assert last == [u] && us == Flatten(others) + [u];
        if others != [] {
          assert others[|others| - 1] == runs[|runs| - 2] && OneSpeaker(runs[|runs| - 2]);
        }
        RunBegins(Flatten(others), u);
      } else {
        FlattenSnoc(others, part);
        ShorterIsMaximal(others, part, u);
        OnlyMaximalRuns(others + [part], Flatten(others) + part);
        LastRunGrows(Flatten(others) + part, u, others, part);
      }
    }
  }

  lemma ShorterIsMaximal(others: seq<seq<Utterance>>, part: seq<Utterance>, u: Utterance)
    requires part != [] && MaximalRuns(others + [part + [u]], Flatten(others + [part + [u]]))
    ensures MaximalRuns(others + [part], Flatten(others + [part])) && part[0].speaker == u.speaker
  {
    var before, after := others + [part + [u]], others + [part];
    assert before[|others|] == part + [u] && OneSpeaker(part + [u]);
    assert (part + [u])[|part|] == u && (part + [u])[0] == part[0];
    assert forall v | v in part :: v in part + [u];
    forall run | run in after ensures OneSpeaker(run) {
      assert run in before || run == part;
    }
    AlternatesAlike(others, part + [u], part);
  }

  /** The trimmed texts of a turn, a space between them. */
  function JoinTexts(run: seq<Utterance>): string {
    if run == [] then ""
    else if |run| == 1 then Trim(run[0].text)
    else JoinTexts(run[..|run| - 1]) + " " + Trim(run[|run| - 1].text)
  }

  function PushTurn(name: string, start: nat, text: string): string {
    if text == "" then "" else "[" + FormatTimestamp(start) + "] " + name + ": " + text + "\n"
  }

  function Turn(speakers: seq<Speaker>, run: seq<Utterance>): string {
    if run == [] then "" else PushTurn(SpeakerName(speakers, run[0].speaker), run[0].start, JoinTexts(run))
  }

  function Render(speakers: seq<Speaker>, runs: seq<seq<Utterance>>): string {
    if runs == [] then "" else Render(speakers, runs[..|runs| - 1]) + Turn(speakers, runs[|runs| - 1])
  }

  /** A turn leaves no line exactly if it is one utterance without text: two blank ones leave a line with a space. */
  lemma DroppedExactly(speakers: seq<Speaker>, run: seq<Utterance>)
    requires run != []
    ensures Turn(speakers, run) == "" <==> |run| == 1 && Trim(run[0].text) == ""
  {
  }

  // ---- The meeting, changed in place ----

  class Meeting {
    var speakers: seq<Speaker>
    var utterances: seq<Utterance>

    constructor ()
      ensures speakers == [] && utterances == []
    {
      speakers, utterances := [], [];
    }

    method UpsertSpeaker(speaker: Speaker)
      modifies this`speakers
      ensures speakers == UpsertedSpeaker(old(speakers), speaker)
    {
      var i := 0;
      while i < |speakers| && speakers[i].user != speaker.user
        invariant 0 <= i <= |speakers|
        invariant forall k | 0 <= k < i :: speakers[k].user != speaker.user
      {
        i := i + 1;
      }
      if i < |speakers| {
        SpeakerFoundAt(speakers, speaker.user, i);
        speakers := speakers[i := speaker];
      } else {
        speakers := speakers + [speaker];
      }
    }

    /** Searches from the end for an utterance that starts no later. */
    method PushUtterance(u: Utterance)
      modifies this`utterances
      ensures utterances == Push(old(utterances), u)
    {
      var p := |utterances|;
      assert utterances[..p] == utterances;
      while p > 0 && utterances[p - 1].start > u.start
        invariant 0 <= p <= |utterances|
        invariant InsertionPoint(utterances, u.start) == InsertionPoint(utterances[..p], u.start)
      {
        assert utterances[..p][..p - 1] == utterances[..p - 1];
        p := p - 1;
      }
      utterances := utterances[..p] + [u] + utterances[p..];
    }

    method UpsertUtterance(u: Utterance) returns (replaced: bool)
      modifies this`utterances
      ensures utterances == Upsert(old(utterances), u)
      ensures replaced == (IndexOf(old(utterances), u.id) < |old(utterances)|)
    {
      var i := 0;
      while i < |utterances| && utterances[i].id != u.id
        invariant 0 <= i <= |utterances|
        invariant forall k | 0 <= k < i :: utterances[k].id != u.id
      {
        i := i + 1;
      }
      if i < |utterances| {
        utterances := utterances[i := u];
        replaced := true;
      } else {
        PushUtterance(u);
        replaced := false;
      }
    }

    method TranscriptText() returns (out: string)
      ensures out == Render(speakers, Runs(utterances))
    {
      out := "";
      var current: Option<OpenTurn> := None;
      MergedEnds(speakers, utterances);
      for i := 0 to |utterances|
        invariant (current, out) == Merged(speakers, utterances[..i])
      {
        var u := utterances[i];
        MergedNext(speakers, utterances, i);
        if current.Some? && current.value.0 == u.speaker {
          current := Some((u.speaker, current.value.1, current.value.2 + " " + Trim(u.text)));
        } else {
          if current.Some? {
            out := out + PushTurn(SpeakerName(speakers, current.value.0), current.value.1, current.value.2);
          }
          current := Some((u.speaker, u.start, Trim(u.text)));
        }
      }
      if current.Some? {
        out := out + PushTurn(SpeakerName(speakers, current.value.0), current.value.1, current.value.2);
      }
    }
  }

  type OpenTurn = (SpeakerId, nat, string)

  /** All turns but the last as text; the last, still being merged. */
  function Merged(speakers: seq<Speaker>, us: seq<Utterance>): (Option<OpenTurn>, string) {
    var runs := Runs(us);
    if runs == [] then (None, "")
    else
      var last := runs[|runs| - 1];
      (Some((last[0].speaker, last[0].start, JoinTexts(last))), Render(speakers, runs[..|runs| - 1]))
  }

  function MergeNext(speakers: seq<Speaker>, merged: (Option<OpenTurn>, string), u: Utterance): (Option<OpenTurn>, string) {
    if merged.0.Some? && merged.0.value.0 == u.speaker then
      (Some((u.speaker, merged.0.value.1, merged.0.value.2 + " " + Trim(u.text))), merged.1)
    else (Some((u.speaker, u.start, Trim(u.text))), Close(speakers, merged))
  }

  function Close(speakers: seq<Speaker>, merged: (Option<OpenTurn>, string)): string {
    if merged.0.Some?
    then merged.1 + PushTurn(SpeakerName(speakers, merged.0.value.0), merged.0.value.1, merged.0.value.2)
    else merged.1
  }

  lemma MergedNext(speakers: seq<Speaker>, us: seq<Utterance>, i: nat)
    requires i < |us|
    ensures Merged(speakers, us[..i + 1]) == MergeNext(speakers, Merged(speakers, us[..i]), us[i])
  {
    RunsNext(us[..i], us[i]);
    assert us[..i + 1] == us[..i] + [us[i]];
  }

  lemma MergedEnds(speakers: seq<Speaker>, us: seq<Utterance>)
    ensures Merged(speakers, us[..0]) == (None, "")
    ensures Render(speakers, Runs(us)) == Close(speakers, Merged(speakers, us[..|us|]))
  {
    assert us[..0] == [] && us[..|us|] == us;
  }

  /** One more utterance extends the last turn or starts one. */
  lemma RunsNext(us: seq<Utterance>, u: Utterance)
    ensures var runs, next := Runs(us), Runs(us + [u]);
            if runs != [] && runs[|runs| - 1][0].speaker == u.speaker then
              var last := runs[|runs| - 1];
              next[..|next| - 1] == runs[..|runs| - 1] && next != [] && next[|next| - 1] == last + [u]
              && JoinTexts(last + [u]) == JoinTexts(last) + " " + Trim(u.text)
            else next != [] && next[..|next| - 1] == runs && next[|next| - 1] == [u]
  {
    assert (us + [u])[..|us|] == us;
    var runs := Runs(us);
    if runs != [] {
      assert (runs[|runs| - 1] + [u])[..|runs[|runs| - 1]|] == runs[|runs| - 1];
    }
  }

  /** The list of the interface. */
  class ShownTranscript {
    var list: seq<Utterance>

    constructor ()
      ensures list == []
    {
      list := [];
    }

    method UpsertUtterance(u: Utterance)
      modifies this
      ensures list == UpsertShown(old(list), u)
    {
      var existing := 0;
      while existing < |list| && list[existing].id != u.id
        invariant 0 <= existing <= |list|
        invariant forall k | 0 <= k < existing :: list[k].id != u.id
      {
        existing := existing + 1;
      }
      if existing < |list| {
        list := Without(list, existing);
      }
      Insert(u);
    }

    /** Searches from the end for an item that starts no later. */
    method Insert(u: Utterance)
      modifies this
      ensures list == Push(old(list), u)
    {
      var at := |list|;
      assert list[..at] == list;
      while at > 0 && list[at - 1].start > u.start
        invariant 0 <= at <= |list| && list == old(list)
        invariant InsertionPoint(list, u.start) == InsertionPoint(list[..at], u.start)
      {
        assert list[..at][..at - 1] == list[..at - 1];
        at := at - 1;
      }
      list := list[..at] + [u] + list[at..];
    }
  }
}
