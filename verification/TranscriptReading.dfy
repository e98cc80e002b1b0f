/**
 Reading the transcript text back: every line says when a turn began, who spoke and what
 was said, and the lines are those of the maximal turns with text, in order.
 */
module TranscriptReading {
  import opened Text
  import opened Transcript
  import opened TranscriptText
  import opened Wrappers

  // ---- A reader of lines ----

  datatype Line = Line(seconds: nat, name: string, text: string)

  /** The mark stands at `i`. */
  predicate At(s: string, mark: string, i: nat) {
    i + |mark| <= |s| && s[i..i + |mark|] == mark
  }

  /** Where `mark` first occurs, or the length of the text. */
  function Find(s: string, mark: string): (k: nat)
    requires mark != ""
    ensures k <= |s|
    ensures k < |s| ==> k + |mark| <= |s|
  {
    if |s| < |mark| then |s| else if At(s, mark, 0) then 0 else 1 + Find(s[1..], mark)
  }

  /** "[" time "] " name ": " text */
  function ReadLine(line: string): Option<Line> {
    if line == "" || line[0] != '[' then None
    else
      var timed := line[1..];
      var k := Find(timed, "] ");
      if k == |timed| then None
      else
        var named := timed[k + 2..];
        var m := Find(named, ": ");
        if m == |named| then None else Some(Line(ReadTimestamp(timed[..k]), named[..m], named[m + 2..]))
  }

  function ReadLines(text: string): seq<Option<Line>>
    decreases |text|
  {
    var k := Find(text, "\n");
    if k == |text| then [] else [ReadLine(text[..k])] + ReadLines(text[k + 1..])
  }

  // ---- What the lines must say ----

  predicate Without(s: string, mark: string) {
    forall i | 0 <= i < |s| :: !At(s, mark, i)
  }

  /** The turn as its line must say it, if it has text. */
  function LineOf(speakers: seq<Speaker>, run: seq<Utterance>): seq<Option<Line>> {
    if run == [] || JoinTexts(run) == "" then []
    else [Some(Line(run[0].start / 1000, SpeakerName(speakers, run[0].speaker), JoinTexts(run)))]
  }

  function LinesOf(speakers: seq<Speaker>, runs: seq<seq<Utterance>>): seq<Option<Line>> {
    if runs == [] then [] else LinesOf(speakers, runs[..|runs| - 1]) + LineOf(speakers, runs[|runs| - 1])
  }

  /** Names that a reader can tell from the text, and no line ends inside. */
  predicate Readable(speakers: seq<Speaker>, us: seq<Utterance>) {
    forall u | u in us ::
      var name := SpeakerName(speakers, u.speaker);
      Without(name, ": ") && '\n' !in name && '\n' !in Trim(u.text)
  }

  // ---- Finding ----

  lemma {:induction false} FoundAt(s: string, mark: string, k: nat)
    requires mark != "" && At(s, mark, k) && forall i | 0 <= i < k :: !At(s, mark, i)
    ensures Find(s, mark) == k
    decreases k
  {
    if k > 0 {
      assert !At(s, mark, 0);
      AtLater(s, mark, k - 1);
      forall i | 0 <= i < k - 1 ensures !At(s[1..], mark, i) {
        AtLater(s, mark, i);
        assert !At(s, mark, i + 1);
      }
      FoundAt(s[1..], mark, k - 1);
    }
  }

  lemma AtLater(s: string, mark: string, i: nat)
    requires s != ""
    ensures At(s[1..], mark, i) <==> At(s, mark, i + 1)
  {
    if i + 1 + |mark| <= |s| {
      assert s[1..][i..i + |mark|] == s[i + 1..i + 1 + |mark|];
    }
  }

  lemma LineEndFound(line: string, rest: string)
    requires '\n' !in line
    ensures Find(line + "\n" + rest, "\n") == |line|
  {
    var s := line + "\n" + rest;
    forall i | 0 <= i < |line| ensures !At(s, "\n", i) {
      assert s[i] == line[i] && s[i..i + 1][0] == s[i];
    }
    assert s[|line|..|line| + 1] == "\n";
    FoundAt(s, "\n", |line|);
  }

  // ---- One line ----

  predicate Clock(s: string) {
    forall c | c in s :: '0' <= c <= ':'
  }

  lemma {:induction false} DecimalIsClock(n: nat)
    ensures Clock(Decimal(n))
    decreases n
  {
    if n >= 10 {
      DecimalIsClock(n / 10);
    }
  }

  lemma TimestampIsClock(ms: nat)
    ensures Clock(FormatTimestamp(ms))
  {
    var total := ms / 1000;
    DecimalIsClock(total / 3600);
    DecimalIsClock(total % 3600 / 60);
    DecimalIsClock(total % 60);
  }

  lemma TimeFound(time: string, rest: string)
    requires Clock(time)
    ensures Find(time + "] " + rest, "] ") == |time|
  {
    var s := time + "] " + rest;
    forall i | 0 <= i < |time| ensures !At(s, "] ", i) {
      assert s[i] == time[i] && time[i] in time;
      assert s[i..i + 2][0] == s[i];
    }
    assert s[|time|..|time| + 2] == "] ";
    FoundAt(s, "] ", |time|);
  }

  lemma NameFound(name: string, rest: string)
    requires Without(name, ": ")
    ensures Find(name + ": " + rest, ": ") == |name|
  {
    var s := name + ": " + rest;
    forall i | 0 <= i < |name| ensures !At(s, ": ", i) {
      if i + 2 <= |name| {
        assert s[i..i + 2] == name[i..i + 2] && !At(name, ": ", i);
      } else {
        assert s[i..i + 2][1] == ':';
      }
    }
    assert s[|name|..|name| + 2] == ": ";
    FoundAt(s, ": ", |name|);
  }

  lemma LineReadsBack(start: nat, name: string, text: string)
    requires Without(name, ": ")
    ensures ReadLine("[" + FormatTimestamp(start) + "] " + name + ": " + text) == Some(Line(start / 1000, name, text))
  {
    var time := FormatTimestamp(start);
    var line, timed, named := "[" + time + "] " + name + ": " + text, time + "] " + (name + ": " + text), name + ": " + text;
    assert line[1..] == timed;
    TimestampIsClock(start);
    TimeFound(time, named);
    assert timed[|time| + 2..] == named && timed[..|time|] == time;
    NameFound(name, text);
    assert named[..|name|] == name && named[|name| + 2..] == text;
    TimestampRoundTrip(start);
  }

  // ---- All lines ----

  predicate WholeLines(text: string) {
    text != "" ==> text[|text| - 1] == '\n'
  }

  lemma FirstLine(s: string, line: string, rest: string)
    requires '\n' !in line && s == line + "\n" + rest
    ensures ReadLines(s) == [ReadLine(line)] + ReadLines(rest)
  {
    LineEndFound(line, rest);
    assert s[..|line|] == line && s[|line| + 1..] == rest;
  }

  lemma Reassociate<T>(a: seq<T>, b: seq<T>, c: seq<T>)
    ensures a + (b + c) == a + b + c
  {
  }

  /** `both` is the text `a` with `longer`, the text behind its first line, in place of `rest`. */
  lemma LineAndRestJoin(a: string, both: string, line: string, rest: string, longer: string, lines: seq<Option<Line>>)
    requires '\n' !in line && a == line + "\n" + rest && both == line + "\n" + longer
    requires ReadLines(longer) == ReadLines(rest) + lines
    ensures ReadLines(both) == ReadLines(a) + lines
  {
    FirstLine(a, line, rest);
    FirstLine(both, line, longer);
    Reassociate([ReadLine(line)], ReadLines(rest), lines);
  }

  lemma {:induction false} LinesJoin(a: string, b: string)
    requires WholeLines(a)
    ensures ReadLines(a + b) == ReadLines(a) + ReadLines(b)
    decreases |a|
  {
    if a == "" {
      assert a + b == b;
    } else {
      var line, rest := SplitLine(a);
      LinesJoin(rest, b);
      Reassociate(line + "\n", rest, b);
      LineAndRestJoin(a, a + b, line, rest, rest + b, ReadLines(b));
    }
  }

  lemma SplitLine(a: string) returns (line: string, rest: string)
    requires WholeLines(a) && a != ""
    ensures a == line + "\n" + rest && '\n' !in line && |rest| < |a| && WholeLines(rest)
  {
    var k := Find(a, "\n");
    FindIsFirst(a);
    line, rest := a[..k], a[k + 1..];
    assert a == line + "\n" + rest;
  }

  /** A text with a line end: the first is found. */
  lemma {:induction false} FindIsFirst(s: string)
    requires '\n' in s
    ensures var k := Find(s, "\n"); k < |s| && s[k] == '\n' && '\n' !in s[..k]
    decreases |s|
  {
    if At(s, "\n", 0) {
      assert s[0..1][0] == s[0];
    } else {
      assert s[0..1] == [s[0]];
      assert s == [s[0]] + s[1..];
      FindIsFirst(s[1..]);
      var k := Find(s, "\n");
      assert s[..k] == [s[0]] + s[1..][..k - 1];
    }
  }

  lemma {:induction false} JoinedHasNoLineEnd(run: seq<Utterance>)
    requires forall u | u in run :: '\n' !in Trim(u.text)
    ensures '\n' !in JoinTexts(run)
    decreases |run|
  {
    if |run| > 1 {
      JoinedHasNoLineEnd(run[..|run| - 1]);
    }
  }

  lemma TurnReadsBack(speakers: seq<Speaker>, run: seq<Utterance>)
    requires Readable(speakers, run)
    ensures ReadLines(Turn(speakers, run)) == LineOf(speakers, run) && WholeLines(Turn(speakers, run))
  {
    if run != [] && JoinTexts(run) != "" {
      var start, name, text := run[0].start, SpeakerName(speakers, run[0].speaker), JoinTexts(run);
      assert run[0] in run;
      JoinedHasNoLineEnd(run);
      TimestampIsClock(start);
      var line := "[" + FormatTimestamp(start) + "] " + name + ": " + text;
      assert '\n' !in line by {
        assert '\n' !in FormatTimestamp(start);
      }
      assert Turn(speakers, run) == line + "\n" + "";
      FirstLine(Turn(speakers, run), line, "");
      LineReadsBack(start, name, text);
    }
  }

  lemma {:induction false} RenderReadsBack(speakers: seq<Speaker>, runs: seq<seq<Utterance>>)
    requires forall run | run in runs :: Readable(speakers, run)
    ensures ReadLines(Render(speakers, runs)) == LinesOf(speakers, runs) && WholeLines(Render(speakers, runs))
    decreases |runs|
  {
    if runs != [] {
      RenderReadsBack(speakers, runs[..|runs| - 1]);
      TurnReadsBack(speakers, runs[|runs| - 1]);
      LinesJoin(Render(speakers, runs[..|runs| - 1]), Turn(speakers, runs[|runs| - 1]));
    }
  }

  lemma {:induction false} PartsAreIn(runs: seq<seq<Utterance>>)
    ensures forall run, u | run in runs && u in run :: u in Flatten(runs)
    decreases |runs|
  {
    if runs != [] {
      PartsAreIn(runs[..|runs| - 1]);
      assert runs == runs[..|runs| - 1] + [runs[|runs| - 1]];
    }
  }

  // ---- Main results ----

  /**
   Read line by line, the transcript says of every maximal turn with text, in order, its
   whole seconds, its speaker's name and its joined text.
   */
  lemma TranscriptReadsBack(speakers: seq<Speaker>, us: seq<Utterance>)
    requires Readable(speakers, us)
    ensures MaximalRuns(Runs(us), us)
    ensures ReadLines(Render(speakers, Runs(us))) == LinesOf(speakers, Runs(us))
  {
    RunsAreMaximal(us);
    PartsAreIn(Runs(us));
    RenderReadsBack(speakers, Runs(us));
  }

  function WordsOf(run: seq<Utterance>): seq<string> {
    if run == [] then [] else WordsOf(run[..|run| - 1]) + Words(run[|run| - 1].text)
  }

  /** The words of a turn are those of its utterances, in order. */
  lemma {:induction false} TurnKeepsWords(run: seq<Utterance>)
    ensures Words(JoinTexts(run)) == WordsOf(run)
    decreases |run|
  {
    if run != [] {
      var front, last := run[..|run| - 1], run[|run| - 1];
      TrimKeepsWords(last.text);
      if |run| > 1 {
        TurnKeepsWords(front);
        WordsApart(JoinTexts(front), ' ', Trim(last.text));
        assert JoinTexts(front) + " " + Trim(last.text) == JoinTexts(front) + [' '] + Trim(last.text);
      } else {
        assert WordsOf(front) == [];
      }
    }
  }
}
