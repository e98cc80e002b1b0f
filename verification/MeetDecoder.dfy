/**
 The auxiliary decoder of an encoded tap in `browser-extension/src/page-capture.js`:
 frames wait per source, are submitted with timestamps that restart at 0, and each output
 is fenced by the decoder's epoch and the route's generation. What WebCodecs answers and
 what the arbitration says are inputs. `submissions` and the `id` of a frame are history.
 */
module MeetDecoder {
  import opened Wrappers

  type Source = string

  const FALLBACK_FRAMES: nat := 125
  const HELD_FRAMES: nat := 3
  const FRAME_US: int := 20000

  datatype Frame = Frame(id: nat, source: Source, generation: nat, allowChallenge: bool)
  datatype Pending = Pending(source: Source, generation: nat, allowChallenge: bool)
  datatype Submission = Submission(epoch: nat, timestamp: int, frame: Frame)
  datatype Decoder = Absent | Configured | Failed
  datatype Outcome = Decoded | Threw | NotConfigured

  datatype Tap = Tap(
    closed: bool,
    decoder: Decoder,
    decoderEpoch: nat,
    nextTimestamp: int,
    routesByTimestamp: map<int, Pending>,
    fallback: map<Source, seq<Frame>>,
    resetScheduled: bool,
    resetToken: nat,
    arrivals: nat,
    submissions: seq<Submission>)

  const NEW_TAP := Tap(false, Absent, 0, 0, map[], map[], false, 0, 0, [])

  /** What the rest of the page answers: capture on, route generations, and who owns a source. */
  datatype Page = Page(running: bool, generations: map<Source, nat>)

  function GenerationOf(page: Page, src: Source): nat {
    if src in page.generations then page.generations[src] else 0
  }

  // ---- Operations ----

  function ResetDecoder(t: Tap): Tap {
    t.(resetScheduled := false, resetToken := t.resetToken + 1, decoderEpoch := t.decoderEpoch + 1,
       decoder := Absent, routesByTimestamp := map[], nextTimestamp := 0)
  }

  function ScheduleReset(t: Tap): Tap {
    if t.closed || t.resetScheduled then t else t.(resetScheduled := true, resetToken := t.resetToken + 1)
  }

  function RunScheduledReset(t: Tap, token: nat): Tap {
    if !t.closed && t.resetScheduled && t.resetToken == token then ResetDecoder(t) else t
  }

  /** The error callback of a decoder instance; only the present one matters. */
  function FailDecoder(t: Tap, epoch: nat): Tap {
    if epoch != t.decoderEpoch then t
    else ScheduleReset(if t.decoder == Configured then t.(decoder := Failed) else t)
  }

  function CloseTap(t: Tap): Tap {
    if t.closed then t else ResetDecoder(t.(closed := true)).(fallback := map[])
  }

  function EnsureDecoder(t: Tap, outcome: Outcome): (Tap, bool) {
    if t.closed then (t, false)
    else if t.decoder == Configured then (t, true)
    else
      var clean := if t.decoder == Failed then ResetDecoder(t) else t;
      var created := clean.(decoderEpoch := clean.decoderEpoch + 1, decoder := Configured);
      if outcome == NotConfigured then (ResetDecoder(created), false) else (created, true)
  }

  function PendingOf(frame: Frame): Pending {
    Pending(frame.source, frame.generation, frame.allowChallenge)
  }

  function SubmitFrame(t: Tap, frame: Frame, outcome: Outcome): (Tap, bool) {
    var timed := t.(nextTimestamp := t.nextTimestamp + FRAME_US);
    if outcome == Decoded then
      (timed.(routesByTimestamp := t.routesByTimestamp[t.nextTimestamp := PendingOf(frame)],
              submissions := t.submissions + [Submission(t.decoderEpoch, t.nextTimestamp, frame)]), true)
    else (ScheduleReset(timed.(routesByTimestamp := t.routesByTimestamp - {t.nextTimestamp})), false)
  }

  /** False only when the frame could not be handed to a decoder. */
  function DecodeFrame(t: Tap, page: Page, publishable: bool, frame: Frame, outcome: Outcome): (Tap, bool) {
    if t.closed || !page.running || !publishable then (t, true)
    else if GenerationOf(page, frame.source) != frame.generation then (t, true)
    else
      var (ready, ok) := EnsureDecoder(t, outcome);
      if !ok then (ready, false) else SubmitFrame(ready, frame, outcome)
  }

  function Newest(frames: seq<Frame>): seq<Frame> {
    if |frames| > FALLBACK_FRAMES then frames[|frames| - FALLBACK_FRAMES..] else frames
  }

  function QueueOf(t: Tap, src: Source): seq<Frame> {
    if src in t.fallback then t.fallback[src] else []
  }

  function WithQueue(t: Tap, src: Source, frames: seq<Frame>): Tap {
    t.(fallback := if frames == [] then t.fallback - {src} else t.fallback[src := frames])
  }

  function BufferFrame(t: Tap, page: Page, src: Source, allowChallenge: bool): Tap {
    var frame := Frame(t.arrivals, src, GenerationOf(page, src), allowChallenge);
    t.(arrivals := t.arrivals + 1, fallback := t.fallback[src := Newest(QueueOf(t, src) + [frame])])
  }

  function DrainFrom(t: Tap, page: Page, publishable: bool, src: Source, frames: seq<Frame>, count: nat, i: nat,
                     oracle: nat -> Outcome): Tap
    requires i <= count <= |frames|
    decreases count - i
  {
    if i == count then t
    else
      var (next, ok) := DecodeFrame(t, page, publishable, frames[i], oracle(i));
      if ok then DrainFrom(next, page, publishable, src, frames, count, i + 1, oracle)
      else WithQueue(next, src, Newest(frames[i + 1..]))
  }

  /** Submits all but the newest `held` frames of a source. */
  function Drain(t: Tap, page: Page, publishable: bool, src: Source, held: nat, oracle: nat -> Outcome): Tap {
    var frames := QueueOf(t, src);
    if |frames| <= held then t
    else
      var count := |frames| - held;
      DrainFrom(WithQueue(t, src, frames[count..]), page, publishable, src, frames, count, 0, oracle)
  }

  /** A decoder instance delivers the output of one of its submissions. */
  function Output(t: Tap, page: Page, publishable: bool, s: Submission): (Tap, Option<Pending>) {
    if t.closed || s.epoch != t.decoderEpoch then (t, None)
    else
      var known := s.timestamp in t.routesByTimestamp;
      var taken := t.(routesByTimestamp := t.routesByTimestamp - {s.timestamp});
      if !page.running then (taken, None)
      else if !known then (ScheduleReset(taken), None)
      else
        var pending := t.routesByTimestamp[s.timestamp];
        if GenerationOf(page, pending.source) != pending.generation then (ScheduleReset(taken), None)
        else if !publishable then (taken, None)
        else (taken, Some(pending))
  }

  // ---- Steps ----

  datatype State = State(tap: Tap, page: Page)

  const INITIAL := State(NEW_TAP, Page(false, map[]))

  datatype Step =
    | SetRunning(on: bool)
    | OwnerChanged(source: Source)
    | DropFallback(source: Source)
    | Restart
    | Close
    | DecoderFails(epoch: nat)
    | RunReset(token: nat)
    | StallReset
    | Arrive(source: Source, allowChallenge: bool)
    | DrainQueue(source: Source, publishable: bool, candidate: bool, oracle: nat -> Outcome)
    | Deliver(index: nat, publishable: bool)

  function Apply(s: State, step: Step): State {
    var t, page := s.tap, s.page;
    match step
    case SetRunning(on) => s.(page := page.(running := on))
    case OwnerChanged(src) =>
      State(t.(fallback := t.fallback - {src}),
            page.(generations := page.generations[src := GenerationOf(page, src) + 1]))
    case DropFallback(src) => s.(tap := t.(fallback := t.fallback - {src}))
    case Restart => s.(tap := ResetDecoder(t).(fallback := map[]))
    case Close => s.(tap := CloseTap(t))
    case DecoderFails(epoch) => s.(tap := FailDecoder(t, epoch))
    case RunReset(token) => s.(tap := RunScheduledReset(t, token))
    case StallReset => s.(tap := ResetDecoder(t))
    case Arrive(src, allow) => if t.closed || !page.running then s else s.(tap := BufferFrame(t, page, src, allow))
    case DrainQueue(src, publishable, candidate, oracle) =>
      s.(tap := Drain(t, page, publishable, src, if candidate then HELD_FRAMES else 0, oracle))
    case Deliver(index, publishable) =>
      if index < |t.submissions| then s.(tap := Output(t, page, publishable, t.submissions[index]).0) else s
  }

  function Run(s: State, steps: seq<Step>): State
    decreases |steps|
  {
    if steps == [] then s else Apply(Run(s, steps[..|steps| - 1]), steps[|steps| - 1])
  }

  // ---- Invariant ----

  predicate Fenced(t: Tap, s: Submission) {
    && s.epoch <= t.decoderEpoch
    && (s.epoch == t.decoderEpoch ==>
          && s.timestamp < t.nextTimestamp
          && (s.timestamp in t.routesByTimestamp ==> t.routesByTimestamp[s.timestamp] == PendingOf(s.frame)))
  }

  predicate FencingOk(t: Tap) {
    forall i | 0 <= i < |t.submissions| :: Fenced(t, t.submissions[i])
  }

  /** Frames of one source, in arrival order, all of that source. */
  predicate Ordered(frames: seq<Frame>, src: Source, arrivals: nat) {
    && (forall i | 0 <= i < |frames| :: frames[i].source == src && frames[i].id < arrivals)
    && (forall i, j | 0 <= i < j < |frames| :: frames[i].id < frames[j].id)
  }

  /** Everything submitted for the source arrived before every one of these frames. */
  predicate Ahead(submissions: seq<Submission>, frames: seq<Frame>, src: Source) {
    forall i, j | 0 <= i < |submissions| && 0 <= j < |frames| && submissions[i].frame.source == src ::
      submissions[i].frame.id < frames[j].id
  }

  predicate InArrivalOrder(submissions: seq<Submission>) {
    forall i, j | 0 <= i < j < |submissions| && submissions[i].frame.source == submissions[j].frame.source ::
      submissions[i].frame.id < submissions[j].frame.id
  }

  predicate QueuesOk(t: Tap) {
    && InArrivalOrder(t.submissions)
    && (forall i | 0 <= i < |t.submissions| :: t.submissions[i].frame.id < t.arrivals)
    && forall src | src in t.fallback ::
         Ordered(t.fallback[src], src, t.arrivals) && Ahead(t.submissions, t.fallback[src], src)
  }

  predicate TapOk(t: Tap) {
    FencingOk(t) && QueuesOk(t)
  }

  // ---- Fencing ----

  lemma EnsureFences(t: Tap, outcome: Outcome)
    requires FencingOk(t)
    ensures var (t', _) := EnsureDecoder(t, outcome);
            && FencingOk(t') && t'.submissions == t.submissions
            && t'.fallback == t.fallback && t'.arrivals == t.arrivals && t'.closed == t.closed
  {
  }

  lemma SubmitFences(t: Tap, frame: Frame, outcome: Outcome)
    requires FencingOk(t)
    ensures FencingOk(SubmitFrame(t, frame, outcome).0)
  {
    var t' := SubmitFrame(t, frame, outcome).0;
    forall i | 0 <= i < |t'.submissions| ensures Fenced(t', t'.submissions[i]) {
      if i < |t.submissions| {
        assert Fenced(t, t.submissions[i]);
      }
    }
  }

  /** What one attempt to decode a frame does to the rest of the tap. */
  lemma DecodeResult(t: Tap, page: Page, publishable: bool, frame: Frame, outcome: Outcome)
    requires FencingOk(t)
    ensures var (t', _) := DecodeFrame(t, page, publishable, frame, outcome);
            && FencingOk(t') && t'.fallback == t.fallback && t'.arrivals == t.arrivals
            && (|| t'.submissions == t.submissions
                || (&& |t'.submissions| == |t.submissions| + 1
                    && t'.submissions[..|t.submissions|] == t.submissions
                    && t'.submissions[|t.submissions|].frame == frame
                    && GenerationOf(page, frame.source) == frame.generation))
  {
    EnsureFences(t, outcome);
    SubmitFences(EnsureDecoder(t, outcome).0, frame, outcome);
  }

  // ---- Order ----

  /** The queue of one source during a drain: `frames[i..]` are still to come. */
  predicate Draining(t: Tap, src: Source, frames: seq<Frame>, i: nat) {
    && TapOk(t) && i <= |frames|
    && Ordered(frames, src, t.arrivals) && Ahead(t.submissions, frames[i..], src)
    && (src in t.fallback ==> exists k | i <= k <= |frames| :: t.fallback[src] == frames[k..])
  }

  lemma SuffixOk(t: Tap, src: Source, frames: seq<Frame>, i: nat, k: nat, queue: seq<Frame>)
    requires TapOk(t) && i <= k <= |frames| && queue == frames[k..]
    requires Ordered(frames, src, t.arrivals) && Ahead(t.submissions, frames[i..], src)
    ensures TapOk(WithQueue(t, src, queue))
  {
    SuffixOrdered(t.submissions, src, frames, i, k, t.arrivals);
    SameFencing(t, WithQueue(t, src, queue));
    QueueReplaced(t, src, queue);
  }

  lemma SuffixOrdered(submissions: seq<Submission>, src: Source, frames: seq<Frame>, i: nat, k: nat, arrivals: nat)
    requires i <= k <= |frames|
    requires Ordered(frames, src, arrivals) && Ahead(submissions, frames[i..], src)
    ensures Ordered(frames[k..], src, arrivals) && Ahead(submissions, frames[k..], src)
  {
    var suffix := frames[k..];
    forall j | 0 <= j < |suffix| ensures suffix[j] == frames[k + j] && suffix[j] == frames[i..][k - i + j] {
    }
  }

  lemma SameFencing(t: Tap, t': Tap)
    requires FencingOk(t)
    requires t'.decoderEpoch == t.decoderEpoch && t'.nextTimestamp == t.nextTimestamp
    requires t'.routesByTimestamp == t.routesByTimestamp && t'.submissions == t.submissions
    ensures FencingOk(t')
  {
    forall i | 0 <= i < |t'.submissions| ensures Fenced(t', t'.submissions[i]) {
      assert Fenced(t, t.submissions[i]);
    }
  }

  lemma QueueReplaced(t: Tap, src: Source, queue: seq<Frame>)
    requires QueuesOk(t) && Ordered(queue, src, t.arrivals) && Ahead(t.submissions, queue, src)
    ensures QueuesOk(WithQueue(t, src, queue))
  {
  }

  /** Where the newest of the frames from `i` on begin. */
  function NewestStart(frames: seq<Frame>, i: nat): (k: nat)
    requires i <= |frames|
    ensures i <= k <= |frames|
  {
    if |frames| - i > FALLBACK_FRAMES then |frames| - FALLBACK_FRAMES else i
  }

  lemma NewestIsSuffix(frames: seq<Frame>, i: nat)
    requires i <= |frames|
    ensures Newest(frames[i..]) == frames[NewestStart(frames, i)..]
  {
  }

  lemma SubmittedAhead(before: seq<Submission>, after: seq<Submission>, src: Source, frames: seq<Frame>, i: nat)
    requires i < |frames| && Ahead(before, frames[i..], src)
    requires forall j, k | 0 <= j < k < |frames| :: frames[j].id < frames[k].id
    requires || after == before
             || (|after| == |before| + 1 && after[..|before|] == before && after[|before|].frame == frames[i])
    ensures Ahead(after, frames[i + 1..], src)
  {
    var later := frames[i + 1..];
    forall j | 0 <= j < |later| ensures later[j] == frames[i..][j + 1] && later[j] == frames[i + 1 + j] {
    }
    forall a | 0 <= a < |before| ensures after[a] == before[a] {
    }
  }

  lemma SubmittedOk(t: Tap, t': Tap, src: Source, frames: seq<Frame>, i: nat)
    requires Draining(t, src, frames, i) && i < |frames|
    requires src in t.fallback ==> exists k | i < k <= |frames| :: t.fallback[src] == frames[k..]
    requires FencingOk(t') && t'.fallback == t.fallback && t'.arrivals == t.arrivals
    requires || t'.submissions == t.submissions
             || (&& |t'.submissions| == |t.submissions| + 1
                 && t'.submissions[..|t.submissions|] == t.submissions
                 && t'.submissions[|t.submissions|].frame == frames[i])
    ensures Draining(t', src, frames, i + 1)
  {
    assert frames[i] == frames[i..][0];
    forall j | i < j < |frames| ensures frames[j] == frames[i..][j - i] {
    }
    SubmittedAhead(t.submissions, t'.submissions, src, frames, i);
    assert forall a | 0 <= a < |t.submissions| :: t'.submissions[a] == t.submissions[a];
    forall x | x in t'.fallback ensures Ahead(t'.submissions, t'.fallback[x], x) {
      if x == src {
        var k :| i < k <= |frames| && t.fallback[src] == frames[k..];
        assert frames[k..] == frames[i + 1..][k - i - 1..];
      } else {
        assert Ahead(t.submissions, t.fallback[x], x);
      }
    }
  }

  lemma {:induction false} DrainFromOk(t: Tap, page: Page, publishable: bool, src: Source, frames: seq<Frame>,
                                       count: nat, i: nat, oracle: nat -> Outcome)
    requires i <= count <= |frames|
    requires Draining(t, src, frames, i)
    requires src in t.fallback ==> t.fallback[src] == frames[count..]
    ensures TapOk(DrainFrom(t, page, publishable, src, frames, count, i, oracle))
    decreases count - i
  {
    if i < count {
      var (next, ok) := DecodeFrame(t, page, publishable, frames[i], oracle(i));
      DecodeResult(t, page, publishable, frames[i], oracle(i));
      SubmittedOk(t, next, src, frames, i);
      if ok {
        DrainFromOk(next, page, publishable, src, frames, count, i + 1, oracle);
      } else {
        NewestIsSuffix(frames, i + 1);
        SuffixOk(next, src, frames, i + 1, NewestStart(frames, i + 1), Newest(frames[i + 1..]));
      }
    }
  }

  lemma DrainOk(t: Tap, page: Page, publishable: bool, src: Source, held: nat, oracle: nat -> Outcome)
    requires TapOk(t)
    ensures TapOk(Drain(t, page, publishable, src, held, oracle))
  {
    var frames := QueueOf(t, src);
    if |frames| > held {
      var count := |frames| - held;
      var t' := WithQueue(t, src, frames[count..]);
      assert frames[0..] == frames;
      SuffixOk(t, src, frames, 0, count, frames[count..]);
      DrainFromOk(t', page, publishable, src, frames, count, 0, oracle);
    }
  }

  lemma ArrivalIsLast(t: Tap, src: Source, frame: Frame)
    requires QueuesOk(t) && frame.id == t.arrivals && frame.source == src
    ensures QueuesOk(t.(arrivals := t.arrivals + 1))
    ensures Ordered(QueueOf(t, src) + [frame], src, t.arrivals + 1)
    ensures Ahead(t.submissions, QueueOf(t, src) + [frame], src)
  {
  }

  /** A new arrival, before it is queued. */
  lemma ArrivalOk(t: Tap, src: Source, frame: Frame)
    requires TapOk(t) && frame.id == t.arrivals && frame.source == src
    ensures var t1, frames := t.(arrivals := t.arrivals + 1), QueueOf(t, src) + [frame];
            TapOk(t1) && Ordered(frames, src, t1.arrivals) && Ahead(t1.submissions, frames[0..], src)
  {
    var frames := QueueOf(t, src) + [frame];
    assert frames[0..] == frames;
    ArrivalIsLast(t, src, frame);
    SameFencing(t, t.(arrivals := t.arrivals + 1));
  }

  lemma BufferOk(t: Tap, page: Page, src: Source, allowChallenge: bool)
    requires TapOk(t)
    ensures TapOk(BufferFrame(t, page, src, allowChallenge))
  {
    var frame := Frame(t.arrivals, src, GenerationOf(page, src), allowChallenge);
    var frames := QueueOf(t, src) + [frame];
    var t1 := t.(arrivals := t.arrivals + 1);
    ArrivalOk(t, src, frame);
    NewestIsSuffix(frames, 0);
    SuffixOk(t1, src, frames, 0, NewestStart(frames, 0), Newest(frames[0..]));
    assert frames[0..] == frames;
  }

  /** A step that submits nothing, invents no pending route and only shortens queues. */
  lemma QuietOk(t: Tap, t': Tap)
    requires TapOk(t) && t'.submissions == t.submissions && t'.arrivals == t.arrivals
    requires forall src | src in t'.fallback :: src in t.fallback && t'.fallback[src] == t.fallback[src]
    requires || t'.decoderEpoch > t.decoderEpoch
             || (t'.decoderEpoch == t.decoderEpoch && t'.nextTimestamp == t.nextTimestamp
                 && t'.routesByTimestamp == t.routesByTimestamp)
    ensures TapOk(t')
  {
    forall i | 0 <= i < |t'.submissions| ensures Fenced(t', t'.submissions[i]) {
      assert Fenced(t, t.submissions[i]);
    }
  }

  lemma StepOk(s: State, step: Step)
    requires TapOk(s.tap)
    ensures TapOk(Apply(s, step).tap)
  {
    match step
    case Arrive(src, allow) => BufferOk(s.tap, s.page, src, allow);
    case DrainQueue(src, publishable, candidate, oracle) =>
      DrainOk(s.tap, s.page, publishable, src, if candidate then HELD_FRAMES else 0, oracle);
    case Deliver(index, publishable) => OutputOk(s.tap, s.page, publishable, index);
    case Close => CloseOk(s.tap);
    case _ => QuietOk(s.tap, Apply(s, step).tap);
  }

  lemma CloseOk(t: Tap)
    requires TapOk(t)
    ensures TapOk(CloseTap(t))
  {
    forall i | 0 <= i < |t.submissions| ensures Fenced(CloseTap(t), t.submissions[i]) {
      assert Fenced(t, t.submissions[i]);
    }
  }

  lemma OutputOk(t: Tap, page: Page, publishable: bool, index: nat)
    requires TapOk(t)
    ensures index < |t.submissions| ==> TapOk(Output(t, page, publishable, t.submissions[index]).0)
  {
    if index < |t.submissions| {
      var t' := Output(t, page, publishable, t.submissions[index]).0;
      forall i | 0 <= i < |t'.submissions| ensures Fenced(t', t'.submissions[i]) {
        assert Fenced(t, t.submissions[i]);
      }
    }
  }

  lemma {:induction false} RunOk(steps: seq<Step>)
    ensures TapOk(Run(INITIAL, steps).tap)
    decreases |steps|
  {
    if steps != [] {
      RunOk(steps[..|steps| - 1]);
      StepOk(Run(INITIAL, steps[..|steps| - 1]), steps[|steps| - 1]);
    }
  }

  // ---- Growth over runs ----

  lemma {:induction false} DrainFromGrows(t: Tap, page: Page, publishable: bool, src: Source, frames: seq<Frame>,
                                          count: nat, i: nat, oracle: nat -> Outcome)
    requires i <= count <= |frames| && FencingOk(t)
    requires GenerationsOk(t.submissions, page)
    ensures var t' := DrainFrom(t, page, publishable, src, frames, count, i, oracle);
            t.submissions <= t'.submissions && GenerationsOk(t'.submissions, page)
    decreases count - i
  {
    if i < count {
      var (next, ok) := DecodeFrame(t, page, publishable, frames[i], oracle(i));
      DecodeResult(t, page, publishable, frames[i], oracle(i));
      if ok {
        DrainFromGrows(next, page, publishable, src, frames, count, i + 1, oracle);
      }
    }
  }

  /** No submission is of a later generation than its route. */
  predicate GenerationsOk(submissions: seq<Submission>, page: Page) {
    forall i | 0 <= i < |submissions| ::
      submissions[i].frame.generation <= GenerationOf(page, submissions[i].frame.source)
  }

  function OwnerChanges(steps: seq<Step>, src: Source): nat {
    if steps == [] then 0
    else OwnerChanges(steps[..|steps| - 1], src) + if steps[|steps| - 1] == OwnerChanged(src) then 1 else 0
  }

  lemma StepGrows(s: State, step: Step, src: Source)
    requires TapOk(s.tap) && GenerationsOk(s.tap.submissions, s.page)
    ensures var s' := Apply(s, step);
            && s.tap.submissions <= s'.tap.submissions
            && GenerationsOk(s'.tap.submissions, s'.page)
            && GenerationOf(s'.page, src) == GenerationOf(s.page, src) + if step == OwnerChanged(src) then 1 else 0
  {
    match step
    case DrainQueue(x, publishable, candidate, oracle) =>
      var held := if candidate then HELD_FRAMES else 0;
      var frames := QueueOf(s.tap, x);
      if |frames| > held {
        var count := |frames| - held;
        SameFencing(s.tap, WithQueue(s.tap, x, frames[count..]));
        DrainFromGrows(WithQueue(s.tap, x, frames[count..]), s.page, publishable, x, frames, count, 0, oracle);
      }
    case _ =>
  }

  lemma {:induction false} RunGrows(before: seq<Step>, later: seq<Step>, src: Source)
    ensures var s, s' := Run(INITIAL, before), Run(INITIAL, before + later);
            && TapOk(s'.tap) && GenerationsOk(s'.tap.submissions, s'.page)
            && s.tap.submissions <= s'.tap.submissions
            && GenerationOf(s'.page, src) == GenerationOf(s.page, src) + OwnerChanges(later, src)
    decreases |before| + |later|, |later|
  {
    if later == [] {
      assert before + later == before;
      if before != [] {
        var front := before[..|before| - 1];
        RunGrows(front, [], src);
        assert front + [] == front;
        StepOk(Run(INITIAL, front), before[|before| - 1]);
        StepGrows(Run(INITIAL, front), before[|before| - 1], src);
      }
    } else {
      var front := later[..|later| - 1];
      RunGrows(before, front, src);
      assert (before + later)[..|before + later| - 1] == before + front;
      StepOk(Run(INITIAL, before + front), later[|later| - 1]);
      StepGrows(Run(INITIAL, before + front), later[|later| - 1], src);
    }
  }

  /** Every frame submitted by a drain is of its source and of the generation its route has now. */
  lemma {:induction false} DrainFromSubmits(t: Tap, page: Page, publishable: bool, src: Source, frames: seq<Frame>,
                                            count: nat, i: nat, oracle: nat -> Outcome)
    requires i <= count <= |frames| && FencingOk(t)
    requires forall f | f in frames :: f.source == src
    ensures var t' := DrainFrom(t, page, publishable, src, frames, count, i, oracle);
            |t.submissions| <= |t'.submissions| && CurrentFrom(t'.submissions, |t.submissions|, page, src)
    decreases count - i
  {
    if i < count {
      var (next, ok) := DecodeFrame(t, page, publishable, frames[i], oracle(i));
      DecodeResult(t, page, publishable, frames[i], oracle(i));
      assert frames[i] in frames;
      if ok {
        DrainFromSubmits(next, page, publishable, src, frames, count, i + 1, oracle);
        DrainFromKeeps(next, page, publishable, src, frames, count, i + 1, oracle);
        CurrentJoins(next.submissions, DrainFrom(next, page, publishable, src, frames, count, i + 1, oracle).submissions,
          |t.submissions|, page, src);
      }
    }
  }

  lemma {:induction false} DrainFromKeeps(t: Tap, page: Page, publishable: bool, src: Source, frames: seq<Frame>,
                                          count: nat, i: nat, oracle: nat -> Outcome)
    requires i <= count <= |frames| && FencingOk(t)
    ensures t.submissions <= DrainFrom(t, page, publishable, src, frames, count, i, oracle).submissions
    decreases count - i
  {
    if i < count {
      var (next, ok) := DecodeFrame(t, page, publishable, frames[i], oracle(i));
      DecodeResult(t, page, publishable, frames[i], oracle(i));
      if ok {
        DrainFromKeeps(next, page, publishable, src, frames, count, i + 1, oracle);
      }
    }
  }

  predicate CurrentFrom(submissions: seq<Submission>, from: nat, page: Page, src: Source) {
    forall k | from <= k < |submissions| ::
      submissions[k].frame.source == src && submissions[k].frame.generation == GenerationOf(page, src)
  }

  lemma CurrentJoins(first: seq<Submission>, all: seq<Submission>, from: nat, page: Page, src: Source)
    requires first <= all && from <= |first|
    requires CurrentFrom(first, from, page, src) && CurrentFrom(all, |first|, page, src)
    ensures CurrentFrom(all, from, page, src)
  {
    assert forall k | from <= k < |first| :: all[k] == first[k];
  }

  lemma DrainSubmits(t: Tap, page: Page, publishable: bool, src: Source, held: nat, oracle: nat -> Outcome)
    requires TapOk(t)
    ensures var t' := Drain(t, page, publishable, src, held, oracle);
            t.submissions <= t'.submissions && CurrentFrom(t'.submissions, |t.submissions|, page, src)
  {
    var frames := QueueOf(t, src);
    if |frames| > held {
      var count := |frames| - held;
      SameFencing(t, WithQueue(t, src, frames[count..]));
      DrainFromSubmits(WithQueue(t, src, frames[count..]), page, publishable, src, frames, count, 0, oracle);
      DrainFromKeeps(WithQueue(t, src, frames[count..]), page, publishable, src, frames, count, 0, oracle);
    }
  }

  /** No output of anything submitted so far for `src` can be accepted any more. */
  predicate Rejects(t: Tap, page: Page, src: Source) {
    forall i, publishable | 0 <= i < |t.submissions| && t.submissions[i].frame.source == src ::
      Output(t, page, publishable, t.submissions[i]).1 == None
  }

  predicate RejectsAll(t: Tap, page: Page) {
    forall i, publishable | 0 <= i < |t.submissions| :: Output(t, page, publishable, t.submissions[i]).1 == None
  }

  lemma ResetRejects(t: Tap, page: Page)
    requires FencingOk(t)
    ensures RejectsAll(ResetDecoder(t), page)
  {
    forall i | 0 <= i < |t.submissions| ensures t.submissions[i].epoch <= t.decoderEpoch {
      assert Fenced(t, t.submissions[i]);
    }
  }

  /** An owner change rejects what was submitted for the source before it. */
  lemma OwnerChangeRejects(t: Tap, page: Page, src: Source)
    requires TapOk(t) && GenerationsOk(t.submissions, page)
    ensures var s' := Apply(State(t, page), OwnerChanged(src));
            Rejects(s'.tap, s'.page, src)
  {
    var s' := Apply(State(t, page), OwnerChanged(src));
    forall i, publishable | 0 <= i < |t.submissions| && t.submissions[i].frame.source == src
      ensures Output(s'.tap, s'.page, publishable, t.submissions[i]).1 == None
    {
      assert Fenced(t, t.submissions[i]);
    }
  }

  // ---- Main results ----

  /**
   An output that passes the checks was submitted to the current decoder instance, is
   paired with the route it was submitted under, and since it was known to be submitted
   that route has not changed its owner.
   */
  lemma AcceptedOutputIsFenced(before: seq<Step>, later: seq<Step>, index: nat, publishable: bool)
    requires index < |Run(INITIAL, before).tap.submissions|
    ensures var s := Run(INITIAL, before + later);
            index < |s.tap.submissions| && s.tap.submissions[index] == Run(INITIAL, before).tap.submissions[index]
    ensures var s := Run(INITIAL, before + later);
            var sub := s.tap.submissions[index];
            var accepted := Output(s.tap, s.page, publishable, sub).1;
            accepted.Some? ==>
              && sub.epoch == s.tap.decoderEpoch
              && accepted.value == PendingOf(sub.frame)
              && GenerationOf(s.page, sub.frame.source) == sub.frame.generation
              && OwnerChanges(later, sub.frame.source) == 0
  {
    var sub := Run(INITIAL, before).tap.submissions[index];
    RunGrows(before, [], sub.frame.source);
    assert before + [] == before;
    RunGrows(before, later, sub.frame.source);
    var s := Run(INITIAL, before + later);
    assert Fenced(s.tap, s.tap.submissions[index]);
  }

  /** Frames of one source are submitted in arrival order, each at most once. */
  lemma SubmittedInArrivalOrder(steps: seq<Step>)
    ensures InArrivalOrder(Run(INITIAL, steps).tap.submissions)
  {
    RunOk(steps);
  }

  /** The frame waits behind those before it, of which only the oldest had to go. */
  predicate WaitsLast(before: seq<Frame>, queue: seq<Frame>, frame: Frame) {
    && |queue| == (if |before| < FALLBACK_FRAMES then |before| + 1 else FALLBACK_FRAMES)
    && queue == (before + [frame])[|before| + 1 - |queue|..]
  }

  lemma BufferedWaitsLast(t: Tap, page: Page, src: Source, allowChallenge: bool)
    ensures WaitsLast(QueueOf(t, src), QueueOf(BufferFrame(t, page, src, allowChallenge), src),
                      Frame(t.arrivals, src, GenerationOf(page, src), allowChallenge))
  {
  }

  // ---- The tap object ----

  class EncodedTap {
    var closed: bool
    var decoder: Decoder
    var decoderEpoch: nat
    var nextTimestamp: int
    var routesByTimestamp: map<int, Pending>
    var fallbackFramesBySource: map<Source, seq<Frame>>
    var decoderResetScheduled: bool
    var decoderResetToken: nat
    var arrivals: nat  // history
    var submissions: seq<Submission>  // history
    ghost var steps: seq<Step>  // what has happened to the tap and the page around it

    ghost function View(): Tap
      reads this
    {
      Tap(closed, decoder, decoderEpoch, nextTimestamp, routesByTimestamp, fallbackFramesBySource,
          decoderResetScheduled, decoderResetToken, arrivals, submissions)
    }

    /**
     The tap is what the steps so far make of a new one: every submission is fenced, the
     queues and the submissions of a source are in arrival order, and no submission is of
     a later generation than its route.
     */
    ghost predicate Valid(page: Page)
      reads this
    {
      && State(View(), page) == Run(INITIAL, steps)
      && TapOk(View())
      && GenerationsOk(submissions, page)
    }

    constructor ()
      ensures Valid(Page(false, map[])) && steps == []
    {
      closed, decoder, decoderEpoch, nextTimestamp := false, Absent, 0, 0;
      routesByTimestamp, fallbackFramesBySource := map[], map[];
      decoderResetScheduled, decoderResetToken := false, 0;
      arrivals, submissions, steps := 0, [], [];
    }

    // ---- What the handlers do ----

    method Reset()
      modifies this
      ensures View() == ResetDecoder(old(View())) && steps == old(steps)
    {
      decoderResetScheduled := false;
      decoderResetToken := decoderResetToken + 1;
      decoderEpoch := decoderEpoch + 1;
      decoder := Absent;
      routesByTimestamp := map[];
      nextTimestamp := 0;
    }

    method Schedule() returns (token: Option<nat>)
      modifies this
      ensures View() == ScheduleReset(old(View())) && steps == old(steps)
      ensures token.Some? ==> RunScheduledReset(View(), token.value) == ResetDecoder(View())
    {
      if closed || decoderResetScheduled {
        return None;
      }
      decoderResetScheduled := true;
      decoderResetToken := decoderResetToken + 1;
      return Some(decoderResetToken);
    }

    method EnsureConfigured(outcome: Outcome) returns (ready: bool)
      modifies this
      ensures (View(), ready) == EnsureDecoder(old(View()), outcome) && steps == old(steps)
    {
      if closed {
        return false;
      }
      if decoder == Configured {
        return true;
      }
      if decoder != Absent {
        Reset();
      }
      decoderEpoch := decoderEpoch + 1;
      decoder := Configured;
      if outcome == NotConfigured {
        Reset();
        return false;
      }
      return true;
    }

    method DecodeFallbackFrame(page: Page, publishable: bool, frame: Frame, outcome: Outcome) returns (handled: bool)
      modifies this
      ensures (View(), handled) == DecodeFrame(old(View()), page, publishable, frame, outcome) && steps == old(steps)
    {
      if closed || !page.running || !publishable {
        return true;
      }
      if GenerationOf(page, frame.source) != frame.generation {
        return true;
      }
      var ready := EnsureConfigured(outcome);
      if !ready {
        return false;
      }
      var timestamp := nextTimestamp;
      nextTimestamp := nextTimestamp + FRAME_US;
      if outcome == Decoded {
        routesByTimestamp := routesByTimestamp[timestamp := PendingOf(frame)];
        submissions := submissions + [Submission(decoderEpoch, timestamp, frame)];
        return true;
      }
      routesByTimestamp := routesByTimestamp - {timestamp};
      var _ := Schedule();
      return false;
    }

    method BufferFallbackFrame(page: Page, src: Source, allowChallenge: bool)
      modifies this
      ensures View() == BufferFrame(old(View()), page, src, allowChallenge) && steps == old(steps)
    {
      var frames := if src in fallbackFramesBySource then fallbackFramesBySource[src] else [];
      frames := frames + [Frame(arrivals, src, GenerationOf(page, src), allowChallenge)];
      arrivals := arrivals + 1;
      if |frames| > FALLBACK_FRAMES {
        frames := frames[|frames| - FALLBACK_FRAMES..];
      }
      fallbackFramesBySource := fallbackFramesBySource[src := frames];
    }

    method StoreQueue(src: Source, frames: seq<Frame>)
      modifies this`fallbackFramesBySource
      ensures View() == WithQueue(old(View()), src, frames)
    {
      if frames == [] {
        fallbackFramesBySource := fallbackFramesBySource - {src};
      } else {
        fallbackFramesBySource := fallbackFramesBySource[src := frames];
      }
    }

    method KeepRetry(src: Source, retry: seq<Frame>)
      modifies this`fallbackFramesBySource
      ensures View() == WithQueue(old(View()), src, Newest(retry))
    {
      if |retry| > FALLBACK_FRAMES {
        StoreQueue(src, retry[|retry| - FALLBACK_FRAMES..]);
      } else {
        StoreQueue(src, retry);
      }
    }

    /** Submits the waiting frames in order; a frame that cannot be submitted is dropped, not retried. */
    method DrainFallbackFrames(page: Page, publishable: bool, src: Source, candidate: bool, oracle: nat -> Outcome)
      modifies this
      ensures View() == Drain(old(View()), page, publishable, src, if candidate then HELD_FRAMES else 0, oracle)
      ensures steps == old(steps)
    {
      var frames := if src in fallbackFramesBySource then fallbackFramesBySource[src] else [];
      var held := if candidate then HELD_FRAMES else 0;
      if |frames| <= held {
        return;
      }
      var count := |frames| - held;
      StoreQueue(src, frames[count..]);
      var i := 0;
      while i < count
        invariant i <= count && steps == old(steps)
        invariant DrainFrom(View(), page, publishable, src, frames, count, i, oracle) ==
                  Drain(old(View()), page, publishable, src, held, oracle)
      {
        var handled := DecodeFallbackFrame(page, publishable, frames[i], oracle(i));
        if !handled {
          KeepRetry(src, frames[i + 1..]);
          return;
        }
        i := i + 1;
      }
    }

    /** The output callback of a decoder instance, up to the point where its audio is accepted. */
    method TakeOutput(page: Page, publishable: bool, s: Submission) returns (accepted: Option<Pending>)
      modifies this
      ensures (View(), accepted) == Output(old(View()), page, publishable, s) && steps == old(steps)
    {
      if closed || s.epoch != decoderEpoch {
        return None;
      }
      var pending := if s.timestamp in routesByTimestamp then Some(routesByTimestamp[s.timestamp]) else None;
      routesByTimestamp := routesByTimestamp - {s.timestamp};
      if !page.running {
        return None;
      }
      if pending.None? || GenerationOf(page, pending.value.source) != pending.value.generation {
        var _ := Schedule();
        return None;
      }
      if !publishable {
        return None;
      }
      return pending;
    }

    // ---- The handlers, each one step ----

    ghost method Took(step: Step, before: State, page: Page)
      requires before == Run(INITIAL, steps) && State(View(), page) == Apply(before, step)
      modifies this`steps
      ensures Valid(page) && steps == old(steps) + [step]
    {
      assert (steps + [step])[..|steps|] == steps;
      steps := steps + [step];
      RunOk(steps);
      RunGrows(steps, [], "");
      assert steps + [] == steps;
    }

    /** Capture starts or stops around the tap. */
    method OnRunning(page: Page, on: bool) returns (next: Page)
      requires Valid(page)
      modifies this
      ensures next == page.(running := on)
      ensures Valid(next) && steps == old(steps) + [SetRunning(on)]
    {
      next := page.(running := on);
      Took(SetRunning(on), State(View(), page), next);
    }

    /** The route of a source gets another owner: nothing submitted for it before is accepted any more. */
    method OnOwnerChanged(page: Page, src: Source) returns (next: Page)
      requires Valid(page)
      modifies this
      ensures Valid(next) && steps == old(steps) + [OwnerChanged(src)]
      ensures src !in fallbackFramesBySource && Rejects(View(), next, src)
    {
      ghost var before := View();
      OwnerChangeRejects(before, page, src);
      next := page.(generations := page.generations[src := GenerationOf(page, src) + 1]);
      fallbackFramesBySource := fallbackFramesBySource - {src};
      Took(OwnerChanged(src), State(before, page), next);
    }

    /** The native path took the source back. */
    method OnNativePreferred(page: Page, src: Source)
      requires Valid(page)
      modifies this
      ensures Valid(page) && steps == old(steps) + [DropFallback(src)]
      ensures src !in fallbackFramesBySource
    {
      ghost var before := View();
      fallbackFramesBySource := fallbackFramesBySource - {src};
      Took(DropFallback(src), State(before, page), page);
    }

    /** Nothing submitted or waiting leaks into the next recording. */
    method OnRestart(page: Page)
      requires Valid(page)
      modifies this
      ensures Valid(page) && steps == old(steps) + [Restart]
      ensures fallbackFramesBySource == map[] && RejectsAll(View(), page)
    {
      ghost var before := View();
      ResetRejects(before, page);
      Reset();
      fallbackFramesBySource := map[];
      Took(Restart, State(before, page), page);
    }

    /** A stalled decoder is replaced: none of its outputs is accepted any more. */
    method OnStall(page: Page)
      requires Valid(page)
      modifies this
      ensures Valid(page) && steps == old(steps) + [StallReset]
      ensures RejectsAll(View(), page)
    {
      ghost var before := View();
      ResetRejects(before, page);
      Reset();
      Took(StallReset, State(before, page), page);
    }

    method OnDecoderError(page: Page, epoch: nat)
      requires Valid(page)
      modifies this
      ensures Valid(page) && steps == old(steps) + [DecoderFails(epoch)]
      ensures epoch == decoderEpoch && !closed ==> decoderResetScheduled && decoder != Configured
      ensures epoch != decoderEpoch ==> View() == old(View())
    {
      ghost var before := View();
      if epoch == decoderEpoch {
        if decoder == Configured {
          decoder := Failed;
        }
        var _ := Schedule();
      }
      Took(DecoderFails(epoch), State(before, page), page);
    }

    /** A scheduled reset runs unless another one came first. */
    method OnScheduledReset(page: Page, token: nat)
      requires Valid(page)
      modifies this
      ensures Valid(page) && steps == old(steps) + [RunReset(token)]
      ensures token == old(decoderResetToken) ==> closed || !decoderResetScheduled
      ensures token != old(decoderResetToken) ==> View() == old(View())
    {
      ghost var before := View();
      if !closed && decoderResetScheduled && decoderResetToken == token {
        Reset();
      }
      Took(RunReset(token), State(before, page), page);
    }

    /** A closed tap accepts nothing, for ever. */
    method OnClose(page: Page)
      requires Valid(page)
      modifies this
      ensures Valid(page) && steps == old(steps) + [Close]
      ensures closed && forall s, publishable :: Output(View(), page, publishable, s).1 == None
    {
      ghost var before := View();
      if !closed {
        closed := true;
        Reset();
        fallbackFramesBySource := map[];
      }
      Took(Close, State(before, page), page);
    }

    method BufferIfOpen(page: Page, src: Source, allowChallenge: bool)
      modifies this
      ensures View() == (if old(closed) || !page.running then old(View()) else BufferFrame(old(View()), page, src, allowChallenge))
      ensures steps == old(steps)
    {
      if !closed && page.running {
        BufferFallbackFrame(page, src, allowChallenge);
      }
    }

    /** A frame waits last in the queue of its source, under the generation its route has now. */
    method OnFrame(page: Page, src: Source, allowChallenge: bool)
      requires Valid(page)
      modifies this
      ensures Valid(page) && steps == old(steps) + [Arrive(src, allowChallenge)]
      ensures !closed && page.running ==>
                WaitsLast(QueueOf(old(View()), src), QueueOf(View(), src),
                          Frame(old(arrivals), src, GenerationOf(page, src), allowChallenge))
    {
      ghost var before := View();
      BufferedWaitsLast(before, page, src, allowChallenge);
      BufferIfOpen(page, src, allowChallenge);
      Took(Arrive(src, allowChallenge), State(before, page), page);
    }

    /** What is submitted is of the source, in arrival order, and of the generation its route has now. */
    method OnDrain(page: Page, publishable: bool, src: Source, candidate: bool, oracle: nat -> Outcome)
      requires Valid(page)
      modifies this
      ensures Valid(page) && steps == old(steps) + [DrainQueue(src, publishable, candidate, oracle)]
      ensures old(submissions) <= submissions && CurrentFrom(submissions, |old(submissions)|, page, src)
      ensures InArrivalOrder(submissions)
    {
      ghost var before := View();
      DrainSubmits(before, page, publishable, src, if candidate then HELD_FRAMES else 0, oracle);
      DrainFallbackFrames(page, publishable, src, candidate, oracle);
      Took(DrainQueue(src, publishable, candidate, oracle), State(before, page), page);
    }

    /**
     An output is accepted only from the decoder it was submitted to, for the route it was
     submitted under, while that route still has the owner of then, and only once.
     */
    method OnOutput(page: Page, publishable: bool, index: nat) returns (accepted: Option<Pending>)
      requires Valid(page) && index < |submissions|
      modifies this
      ensures Valid(page) && steps == old(steps) + [Deliver(index, publishable)]
      ensures submissions == old(submissions)
      ensures accepted.Some? ==>
                && submissions[index].epoch == decoderEpoch
                && accepted.value == PendingOf(submissions[index].frame)
                && GenerationOf(page, accepted.value.source) == accepted.value.generation
                && !closed && page.running && publishable
      ensures Output(View(), page, publishable, submissions[index]).1 == None
    {
      ghost var before := View();
      assert Fenced(before, submissions[index]);
      accepted := TakeOutput(page, publishable, submissions[index]);
      Took(Deliver(index, publishable), State(before, page), page);
    }
  }
}
