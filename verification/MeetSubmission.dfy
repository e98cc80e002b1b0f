/**
 What the encoded tap does with frames that nothing prevents it from decoding: a drain
 submits every one whose route has not changed its owner, and every output of what was
 submitted is accepted once.
 */
module MeetSubmission {
  import opened Wrappers
  import opened MeetDecoder

  // ---- What a drain submits ----

  /** The frames that arrived under the present owner of their route, in order. */
  function Current(frames: seq<Frame>, generation: nat): seq<Frame> {
    if frames == [] then []
    else Current(frames[..|frames| - 1], generation) +
         if frames[|frames| - 1].generation == generation then [frames[|frames| - 1]] else []
  }

  function FramesOf(submissions: seq<Submission>): seq<Frame> {
    seq(|submissions|, i requires 0 <= i < |submissions| => submissions[i].frame)
  }

  predicate Usable(t: Tap, page: Page, publishable: bool) {
    !t.closed && page.running && publishable
  }

  /** The drain gets as far as `n`: no current frame before it fails, and the one there does unless all are done. */
  predicate GetsTo(frames: seq<Frame>, generation: nat, count: nat, oracle: nat -> Outcome, n: nat)
    requires n <= count <= |frames|
  {
    && (forall i | 0 <= i < n && frames[i].generation == generation :: oracle(i) == Decoded)
    && (n < count ==> frames[n].generation == generation && oracle(n) != Decoded)
  }

  /** These frames were handed to one decoder instance, behind everything before. */
  predicate Submits(t: Tap, t': Tap, frames: seq<Frame>) {
    && t.submissions <= t'.submissions
    && FramesOf(t'.submissions[|t.submissions|..]) == frames
    && (forall k | |t.submissions| <= k < |t'.submissions| :: t'.submissions[k].epoch == t'.decoderEpoch)
    && (t.decoder == Configured ==> t'.decoder == Configured && t'.decoderEpoch == t.decoderEpoch)
    && (frames != [] ==> t'.decoder == Configured)
  }

  lemma NothingSubmitted(t: Tap, t': Tap)
    requires t'.submissions == t.submissions
    requires t.decoder == Configured ==> t'.decoder == Configured && t'.decoderEpoch == t.decoderEpoch
    ensures Submits(t, t', [])
  {
  }

  /** A current frame that decodes is submitted last. */
  lemma FrameSubmits(t: Tap, page: Page, frame: Frame)
    requires Usable(t, page, true) && frame.generation == GenerationOf(page, frame.source)
    ensures var (t', ok) := DecodeFrame(t, page, true, frame, Decoded);
            ok && Submits(t, t', [frame]) && t'.fallback == t.fallback && Usable(t', page, true)
  {
  }

  lemma SubmitsJoin(a: Tap, b: Tap, c: Tap, first: seq<Frame>, rest: seq<Frame>)
    requires Submits(a, b, first) && Submits(b, c, rest)
    ensures Submits(a, c, first + rest)
  {
    var all := c.submissions[|a.submissions|..];
    assert all == b.submissions[|a.submissions|..] + c.submissions[|b.submissions|..];
    forall k | |a.submissions| <= k < |c.submissions| ensures c.submissions[k].epoch == c.decoderEpoch {
      if k < |b.submissions| {
        assert first != [];
        assert c.submissions[k] == b.submissions[k];
      }
    }
  }

  /** The frames from `i` to `n` that are current, and the queue a stop at `n` leaves. */
  function Later(frames: seq<Frame>, i: nat, n: nat, generation: nat): seq<Frame>
    requires i <= n <= |frames|
  {
    Current(frames[i..n], generation)
  }

  lemma {:induction false} CurrentOfBoth(a: seq<Frame>, b: seq<Frame>, generation: nat)
    ensures Current(a + b, generation) == Current(a, generation) + Current(b, generation)
    decreases |b|
  {
    if b == [] {
      assert a + b == a;
    } else {
      CurrentOfBoth(a, b[..|b| - 1], generation);
      assert (a + b)[..|a + b| - 1] == a + b[..|b| - 1];
    }
  }

  lemma LaterBegins(frames: seq<Frame>, i: nat, n: nat, generation: nat)
    requires i < n <= |frames|
    ensures Later(frames, i, n, generation) ==
            (if frames[i].generation == generation then [frames[i]] else []) + Later(frames, i + 1, n, generation)
  {
    assert frames[i..n] == [frames[i]] + frames[i + 1..n];
    CurrentOfBoth([frames[i]], frames[i + 1..n], generation);
    assert [frames[i]][..0] == [];
  }

  lemma {:induction false} DrainFromExactly(t: Tap, page: Page, src: Source, frames: seq<Frame>, count: nat, i: nat,
                                            oracle: nat -> Outcome, n: nat)
    requires i <= n <= count <= |frames| && Usable(t, page, true)
    requires forall f | f in frames :: f.source == src
    requires GetsTo(frames, GenerationOf(page, src), count, oracle, n)
    ensures var t' := DrainFrom(t, page, true, src, frames, count, i, oracle);
            && Submits(t, t', Later(frames, i, n, GenerationOf(page, src)))
            && QueueOf(t', src) == if n == count then QueueOf(t, src) else Newest(frames[n + 1..])
    decreases n - i
  {
    var generation := GenerationOf(page, src);
    if i < n {
      assert frames[i] in frames;
      LaterBegins(frames, i, n, generation);
      var next := DecodeFrame(t, page, true, frames[i], oracle(i)).0;
      if frames[i].generation == generation {
        FrameSubmits(t, page, frames[i]);
        DrainFromExactly(next, page, src, frames, count, i + 1, oracle, n);
        SubmitsJoin(t, next, DrainFrom(next, page, true, src, frames, count, i + 1, oracle),
          [frames[i]], Later(frames, i + 1, n, generation));
      } else {
        DrainFromExactly(t, page, src, frames, count, i + 1, oracle, n);
      }
    } else {
      assert frames[i..n] == [];
      if n < count {
        assert frames[n] in frames;
        FailureSubmitsNothing(t, page, frames[n], oracle(n));
        NothingSubmitted(t, DrainFrom(t, page, true, src, frames, count, i, oracle));
      }
    }
  }

  lemma FailureSubmitsNothing(t: Tap, page: Page, frame: Frame, outcome: Outcome)
    requires Usable(t, page, true) && frame.generation == GenerationOf(page, frame.source) && outcome != Decoded
    ensures var (t', ok) := DecodeFrame(t, page, true, frame, outcome);
            && !ok && t'.submissions == t.submissions
            && (t.decoder == Configured ==> t'.decoder == Configured && t'.decoderEpoch == t.decoderEpoch)
  {
  }

  lemma {:induction false} UselessDrain(t: Tap, page: Page, publishable: bool, src: Source, frames: seq<Frame>, count: nat,
                                        i: nat, oracle: nat -> Outcome)
    requires i <= count <= |frames| && !Usable(t, page, publishable)
    ensures DrainFrom(t, page, publishable, src, frames, count, i, oracle) == t
    decreases count - i
  {
    if i < count {
      UselessDrain(t, page, publishable, src, frames, count, i + 1, oracle);
    }
  }

  /** How far a drain gets. */
  function Reach(frames: seq<Frame>, generation: nat, count: nat, oracle: nat -> Outcome, i: nat): (n: nat)
    requires i <= count <= |frames|
    requires forall k | 0 <= k < i && frames[k].generation == generation :: oracle(k) == Decoded
    ensures i <= n <= count && GetsTo(frames, generation, count, oracle, n)
    decreases count - i
  {
    if i == count || (frames[i].generation == generation && oracle(i) != Decoded) then i
    else Reach(frames, generation, count, oracle, i + 1)
  }

  /**
   A drain submits exactly the frames of the present owner among all but the newest `held`,
   in order, up to the first that fails; that one is dropped and the later ones wait again.
   With capture off or the source not owned it submits nothing. Those frames wait no more.
   */
  lemma DrainExactly(t: Tap, page: Page, publishable: bool, src: Source, held: nat, oracle: nat -> Outcome, n: nat)
    requires TapOk(t) && held < |QueueOf(t, src)|
    requires n <= |QueueOf(t, src)| - held
    requires GetsTo(QueueOf(t, src), GenerationOf(page, src), |QueueOf(t, src)| - held, oracle, n)
    ensures var t', frames, count := Drain(t, page, publishable, src, held, oracle), QueueOf(t, src), |QueueOf(t, src)| - held;
            if !Usable(t, page, publishable) then t'.submissions == t.submissions && QueueOf(t', src) == frames[count..]
            else
              && Submits(t, t', Current(frames[..n], GenerationOf(page, src)))
              && QueueOf(t', src) == if n == count then frames[count..] else Newest(frames[n + 1..])
  {
    var frames := QueueOf(t, src);
    var count := |frames| - held;
    var kept := WithQueue(t, src, frames[count..]);
    if Usable(t, page, publishable) {
      DrainFromExactly(kept, page, src, frames, count, 0, oracle, n);
      assert frames[0..n] == frames[..n];
    } else {
      UselessDrain(kept, page, publishable, src, frames, count, 0, oracle);
    }
  }

  // ---- What a drain leaves of the decoder ----

  /** The decoder after `tried` frames, of which the last one failed with `failure`, if any. */
  predicate Leaves(t: Tap, t': Tap, tried: nat, failure: Option<Outcome>) {
    var unmade := failure == Some(NotConfigured) && tried == 1 && t.decoder != Configured;
    && t'.decoder == (if unmade then Absent else if tried > 0 then Configured else t.decoder)
    && t'.resetScheduled == if unmade then false
                            else failure.Some? || (t.resetScheduled && !(tried > 0 && t.decoder == Failed))
  }

  lemma FrameLeaves(t: Tap, page: Page, frame: Frame, outcome: Outcome)
    requires Usable(t, page, true) && frame.generation == GenerationOf(page, frame.source)
    ensures var (t', ok) := DecodeFrame(t, page, true, frame, outcome);
            && ok == (outcome == Decoded) && t'.closed == t.closed
            && Leaves(t, t', 1, if outcome == Decoded then None else Some(outcome))
  {
  }

  lemma {:induction false} DrainFromLeaves(t: Tap, page: Page, src: Source, frames: seq<Frame>, count: nat, i: nat,
                                           oracle: nat -> Outcome, n: nat)
    requires i <= n <= count <= |frames| && Usable(t, page, true)
    requires forall f | f in frames :: f.source == src
    requires GetsTo(frames, GenerationOf(page, src), count, oracle, n)
    ensures var t' := DrainFrom(t, page, true, src, frames, count, i, oracle);
            var sent := |Later(frames, i, n, GenerationOf(page, src))|;
            Leaves(t, t', if n < count then sent + 1 else sent, if n < count then Some(oracle(n)) else None)
    decreases n - i
  {
    if i < n {
      assert frames[i] in frames;
      LaterBegins(frames, i, n, GenerationOf(page, src));
      if frames[i].generation == GenerationOf(page, src) {
        FrameLeaves(t, page, frames[i], Decoded);
        DrainFromLeaves(DecodeFrame(t, page, true, frames[i], Decoded).0, page, src, frames, count, i + 1, oracle, n);
      } else {
        DrainFromLeaves(t, page, src, frames, count, i + 1, oracle, n);
      }
    } else {
      assert frames[i..n] == [];
      if n < count {
        assert frames[n] in frames;
        FrameLeaves(t, page, frames[n], oracle(n));
      }
    }
  }

  /**
   A drain that fails at a frame schedules a reset of the decoder, unless there is none to
   reset because it could not be made; one that does not fail schedules none. The first
   frame that is tried replaces a failed decoder.
   */
  lemma DrainLeavesExactly(t: Tap, page: Page, publishable: bool, src: Source, held: nat, oracle: nat -> Outcome, n: nat)
    requires TapOk(t) && held < |QueueOf(t, src)|
    requires n <= |QueueOf(t, src)| - held
    requires GetsTo(QueueOf(t, src), GenerationOf(page, src), |QueueOf(t, src)| - held, oracle, n)
    ensures var t', frames, count := Drain(t, page, publishable, src, held, oracle), QueueOf(t, src), |QueueOf(t, src)| - held;
            var sent := |Current(frames[..n], GenerationOf(page, src))|;
            if !Usable(t, page, publishable) then Leaves(t, t', 0, None)
            else Leaves(t, t', if n < count then sent + 1 else sent, if n < count then Some(oracle(n)) else None)
  {
    var frames := QueueOf(t, src);
    var count := |frames| - held;
    var kept := WithQueue(t, src, frames[count..]);
    if Usable(t, page, publishable) {
      DrainFromLeaves(kept, page, src, frames, count, 0, oracle, n);
      assert frames[0..n] == frames[..n];
    } else {
      UselessDrain(kept, page, publishable, src, frames, count, 0, oracle);
    }
  }

  // ---- Which outputs are accepted ----

  /** It is the turn of a submission. */
  predicate TurnsUp(t: Tap, step: Step) {
    step.Deliver? && step.index < |t.submissions|
  }

  /** The submissions whose turn came. */
  function Had(steps: seq<Step>): set<nat> {
    if steps == [] then {}
    else
      var front, last := steps[..|steps| - 1], steps[|steps| - 1];
      if TurnsUp(Run(INITIAL, front).tap, last) then Had(front) + {last.index} else Had(front)
  }

  /** What was submitted to the present decoder instance is known under its own timestamp until its turn comes. */
  predicate Awaited(t: Tap, had: set<nat>) {
    && (forall i | i in had :: i < |t.submissions|)
    && (forall i | 0 <= i < |t.submissions| :: t.submissions[i].epoch <= t.decoderEpoch)
    && (forall i | 0 <= i < |t.submissions| && t.submissions[i].epoch == t.decoderEpoch ::
          && t.submissions[i].timestamp < t.nextTimestamp
          && (!t.closed ==> (t.submissions[i].timestamp in t.routesByTimestamp <==> i !in had)))
    && (forall i, j | 0 <= i < j < |t.submissions| && t.submissions[i].epoch == t.submissions[j].epoch == t.decoderEpoch ::
          t.submissions[i].timestamp < t.submissions[j].timestamp)
  }

  lemma DecodeAwaits(t: Tap, page: Page, publishable: bool, frame: Frame, outcome: Outcome, had: set<nat>)
    requires Awaited(t, had)
    ensures Awaited(DecodeFrame(t, page, publishable, frame, outcome).0, had)
  {
    EnsureAwaits(t, outcome, had);
    SubmitAwaits(EnsureDecoder(t, outcome).0, frame, outcome, had);
  }

  lemma EnsureAwaits(t: Tap, outcome: Outcome, had: set<nat>)
    requires Awaited(t, had)
    ensures Awaited(EnsureDecoder(t, outcome).0, had)
  {
  }

  lemma SubmitAwaits(t: Tap, frame: Frame, outcome: Outcome, had: set<nat>)
    requires Awaited(t, had)
    ensures Awaited(SubmitFrame(t, frame, outcome).0, had)
  {
  }

  lemma {:induction false} DrainFromAwaits(t: Tap, page: Page, publishable: bool, src: Source, frames: seq<Frame>,
                                           count: nat, i: nat, oracle: nat -> Outcome, had: set<nat>)
    requires i <= count <= |frames| && Awaited(t, had)
    ensures Awaited(DrainFrom(t, page, publishable, src, frames, count, i, oracle), had)
    decreases count - i
  {
    if i < count {
      var (next, ok) := DecodeFrame(t, page, publishable, frames[i], oracle(i));
      DecodeAwaits(t, page, publishable, frames[i], oracle(i), had);
      if ok {
        DrainFromAwaits(next, page, publishable, src, frames, count, i + 1, oracle, had);
      }
    }
  }

  lemma ResetAwaits(t: Tap, t': Tap, had: set<nat>)
    requires Awaited(t, had) && t'.submissions == t.submissions && t'.decoderEpoch > t.decoderEpoch
    ensures Awaited(t', had)
  {
  }

  /** The decoder instance and what was submitted are the same; routes may be. */
  predicate SameDecoder(t: Tap, t': Tap) {
    && t'.submissions == t.submissions && t'.decoderEpoch == t.decoderEpoch
    && t'.nextTimestamp == t.nextTimestamp && t'.closed == t.closed
  }

  lemma SameAwaits(t: Tap, t': Tap, had: set<nat>)
    requires Awaited(t, had) && SameDecoder(t, t') && t'.routesByTimestamp == t.routesByTimestamp
    ensures Awaited(t', had)
  {
  }

  lemma TakenAwaits(t: Tap, t': Tap, index: nat, had: set<nat>)
    requires Awaited(t, had) && SameDecoder(t, t') && index < |t.submissions|
    requires t.submissions[index].epoch == t.decoderEpoch
    requires t'.routesByTimestamp == t.routesByTimestamp - {t.submissions[index].timestamp}
    ensures Awaited(t', had + {index})
  {
    var ts := t.submissions[index].timestamp;
    forall i | 0 <= i < |t.submissions| && t.submissions[i].epoch == t.decoderEpoch && i != index
      ensures t.submissions[i].timestamp != ts
    {
      if i < index {
        assert t.submissions[i].timestamp < t.submissions[index].timestamp;
      } else {
        assert t.submissions[index].timestamp < t.submissions[i].timestamp;
      }
    }
  }

  lemma OutdatedAwaits(t: Tap, index: nat, had: set<nat>)
    requires Awaited(t, had) && index < |t.submissions| && (t.closed || t.submissions[index].epoch != t.decoderEpoch)
    ensures Awaited(t, had + {index})
  {
  }

  lemma OutputAwaits(t: Tap, page: Page, publishable: bool, index: nat, had: set<nat>)
    requires Awaited(t, had) && index < |t.submissions|
    ensures Awaited(Output(t, page, publishable, t.submissions[index]).0, had + {index})
  {
    if t.closed || t.submissions[index].epoch != t.decoderEpoch {
      OutdatedAwaits(t, index, had);
    } else {
      TakenAwaits(t, Output(t, page, publishable, t.submissions[index]).0, index, had);
    }
  }

  lemma DrainAwaits(t: Tap, page: Page, publishable: bool, src: Source, held: nat, oracle: nat -> Outcome, had: set<nat>)
    requires Awaited(t, had)
    ensures Awaited(Drain(t, page, publishable, src, held, oracle), had)
  {
    var frames := QueueOf(t, src);
    if |frames| > held {
      var kept := WithQueue(t, src, frames[|frames| - held..]);
      SameAwaits(t, kept, had);
      DrainFromAwaits(kept, page, publishable, src, frames, |frames| - held, 0, oracle, had);
    }
  }

  lemma QuietAwaits(s: State, step: Step, had: set<nat>)
    requires Awaited(s.tap, had) && !step.DrainQueue? && !TurnsUp(s.tap, step)
    ensures Awaited(Apply(s, step).tap, had)
  {
    var t, t' := s.tap, Apply(s, step).tap;
    if t'.decoderEpoch > t.decoderEpoch {
      ResetAwaits(t, t', had);
    } else {
      SameAwaits(t, t', had);
    }
  }

  lemma DrainStepAwaits(s: State, step: Step, had: set<nat>)
    requires Awaited(s.tap, had) && step.DrainQueue?
    ensures Awaited(Apply(s, step).tap, had)
  {
    DrainAwaits(s.tap, s.page, step.publishable, step.source, if step.candidate then HELD_FRAMES else 0, step.oracle, had);
  }

  lemma StepAwaits(s: State, step: Step, had: set<nat>)
    requires Awaited(s.tap, had)
    ensures Awaited(Apply(s, step).tap, if TurnsUp(s.tap, step) then had + {step.index} else had)
  {
    if step.DrainQueue? {
      DrainStepAwaits(s, step, had);
    } else if TurnsUp(s.tap, step) {
      OutputAwaits(s.tap, s.page, step.publishable, step.index, had);
    } else {
      QuietAwaits(s, step, had);
    }
  }

  lemma {:induction false} RunAwaits(steps: seq<Step>)
    ensures Awaited(Run(INITIAL, steps).tap, Had(steps))
    decreases |steps|
  {
    if steps != [] {
      var front, last := steps[..|steps| - 1], steps[|steps| - 1];
      RunAwaits(front);
      StepAwaits(Run(INITIAL, front), last, Had(front));
    }
  }

  /**
   Over every run, the output of a submission is accepted exactly if its turn comes for the
   first time, from the present decoder of an open tap, with capture on, under the owner it
   was submitted for, and while the encoded path owns the source.
   */
  lemma OutputAcceptedExactly(steps: seq<Step>, index: nat, publishable: bool)
    requires index < |Run(INITIAL, steps).tap.submissions|
    ensures var s := Run(INITIAL, steps);
            var sub := s.tap.submissions[index];
            Output(s.tap, s.page, publishable, sub).1 ==
              if && Usable(s.tap, s.page, publishable) && sub.epoch == s.tap.decoderEpoch
                 && GenerationOf(s.page, sub.frame.source) == sub.frame.generation
                 && index !in Had(steps)
              then Some(PendingOf(sub.frame)) else None
  {
    RunOk(steps);
    RunAwaits(steps);
    assert Fenced(Run(INITIAL, steps).tap, Run(INITIAL, steps).tap.submissions[index]);
  }

  /**
   Over every run, an output schedules a reset of its decoder exactly if it is of the present
   one, of an open tap, with capture on, and is not its submission's first or comes after the
   owner changed.
   */
  lemma OutputResetsExactly(steps: seq<Step>, index: nat, publishable: bool)
    requires index < |Run(INITIAL, steps).tap.submissions|
    ensures var s := Run(INITIAL, steps);
            var sub := s.tap.submissions[index];
            Output(s.tap, s.page, publishable, sub).0.resetScheduled <==>
              || s.tap.resetScheduled
              || (&& !s.tap.closed && s.page.running && sub.epoch == s.tap.decoderEpoch
                  && (index in Had(steps) || GenerationOf(s.page, sub.frame.source) != sub.frame.generation))
  {
    RunOk(steps);
    RunAwaits(steps);
    assert Fenced(Run(INITIAL, steps).tap, Run(INITIAL, steps).tap.submissions[index]);
  }
}
