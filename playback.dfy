/** Timing of gapless playback. Each decoded segment starts at the later of
    the end of the queue (`nextStartTime`) and the output clock, and pushes
    the end of the queue forward by its duration. Time is exact `real`. */
module Playback {

  /** `Math.max(nextStartTime, ctx.currentTime)`: when the next segment starts. */
  function StartTime(nextStartTime: real, currentTime: real): (start: real)
    ensures start >= currentTime && start >= nextStartTime
    ensures start == currentTime || start == nextStartTime
  {
    if nextStartTime >= currentTime then nextStartTime else currentTime
  }

  /** One arriving audio segment: the output clock when it is enqueued and
      the duration its decoded buffer has. */
  datatype Segment = Segment(currentTime: real, duration: real)

  predicate Durations(segs: seq<Segment>)
  {
    forall i :: 0 <= i < |segs| ==> segs[i].duration >= 0.0
  }

  /** The start times of consecutive enqueues from queue end `next`. */
  function StartTimes(next: real, segs: seq<Segment>): (starts: seq<real>)
    ensures |starts| == |segs|
    decreases |segs|
  {
    if segs == [] then []
    else
      var s := StartTime(next, segs[0].currentTime);
      [s] + StartTimes(s + segs[0].duration, segs[1..])
  }

  /** The end of the queue after consecutive enqueues from `next`: the end of
      the last segment, or `next` itself when nothing was enqueued. */
  function QueueEnd(next: real, segs: seq<Segment>): (end: real)
    ensures segs == [] ==> end == next
    ensures segs != [] ==> end == StartTimes(next, segs)[|segs| - 1] + segs[|segs| - 1].duration
    decreases |segs|
  {
    if segs == [] then next
    else QueueEnd(StartTime(next, segs[0].currentTime) + segs[0].duration, segs[1..])
  }

  /** One enqueue, as `PlayAudio` performs it, followed by the rest: the
      first start is `StartTime` of the queue end and the clock, and the
      rest are scheduled from the queue end moved past that segment. */
  lemma StartTimesCons(next: real, seg: Segment, rest: seq<Segment>)
    ensures var start := StartTime(next, seg.currentTime);
            && StartTimes(next, [seg] + rest) == [start] + StartTimes(start + seg.duration, rest)
            && QueueEnd(next, [seg] + rest) == QueueEnd(start + seg.duration, rest)
  {
    assert ([seg] + rest)[0] == seg && ([seg] + rest)[1..] == rest;
  }

  /** Every segment starts no earlier than the clock at its enqueue and no
      earlier than the end of the segment before it, so segments never
      overlap; the first starts no earlier than the old queue end. */
  lemma {:induction false} StartTimesNoOverlap(next: real, segs: seq<Segment>)
    requires Durations(segs)
    ensures var starts := StartTimes(next, segs);
            && (|segs| > 0 ==> starts[0] >= next)
            && (forall i :: 0 <= i < |segs| ==> starts[i] >= segs[i].currentTime)
            && (forall i :: 0 <= i < |segs| - 1 ==> starts[i + 1] >= starts[i] + segs[i].duration)
    decreases |segs|
  {
    if segs != [] {
      var s := StartTime(next, segs[0].currentTime);
      var rest := segs[1..];
      assert Durations(rest) by {
        forall i | 0 <= i < |rest| ensures rest[i].duration >= 0.0 { assert rest[i] == segs[i + 1]; }
      }
      StartTimesNoOverlap(s + segs[0].duration, rest);
      var starts := StartTimes(next, segs);
      assert starts == [s] + StartTimes(s + segs[0].duration, rest);
      forall i | 0 <= i < |segs| ensures starts[i] >= segs[i].currentTime {
        if i > 0 { assert starts[i] == StartTimes(s + segs[0].duration, rest)[i - 1] && segs[i] == rest[i - 1]; }
      }
      forall i | 0 <= i < |segs| - 1 ensures starts[i + 1] >= starts[i] + segs[i].duration {
        if i > 0 {
          assert starts[i] == StartTimes(s + segs[0].duration, rest)[i - 1] && segs[i] == rest[i - 1];
        }
      }
    }
  }

  /** Each segment is scheduled from the end of the one before it: the first
      from `next`, every later one at the later of the previous end and its
      own enqueue clock. */
  lemma {:induction false} StartTimesStep(next: real, segs: seq<Segment>)
    ensures var starts := StartTimes(next, segs);
            && (|segs| > 0 ==> starts[0] == StartTime(next, segs[0].currentTime))
            && (forall i :: 0 <= i < |segs| - 1 ==>
                  starts[i + 1] == StartTime(starts[i] + segs[i].duration, segs[i + 1].currentTime))
    decreases |segs|
  {
    if segs != [] {
      var s := StartTime(next, segs[0].currentTime);
      var rest := segs[1..];
      StartTimesStep(s + segs[0].duration, rest);
      var tail := StartTimes(s + segs[0].duration, rest);
      var starts := StartTimes(next, segs);
      assert starts == [s] + tail;
      forall i | 0 <= i < |segs| - 1
        ensures starts[i + 1] == StartTime(starts[i] + segs[i].duration, segs[i + 1].currentTime)
      {
        assert starts[i + 1] == tail[i] && segs[i + 1] == rest[i];
        if i > 0 { assert starts[i] == tail[i - 1] && segs[i] == rest[i - 1]; }
      }
    }
  }

  /** Playback is gapless: a segment that arrives before the previous one has
      finished starts exactly at its end; one that arrives after starts at
      its own enqueue clock. */
  lemma StartTimesGapless(next: real, segs: seq<Segment>)
    ensures var starts := StartTimes(next, segs);
            forall i :: 0 <= i < |segs| - 1 ==>
              && (segs[i + 1].currentTime <= starts[i] + segs[i].duration ==>
                    starts[i + 1] == starts[i] + segs[i].duration)
              && (segs[i + 1].currentTime > starts[i] + segs[i].duration ==>
                    starts[i + 1] == segs[i + 1].currentTime)
  {
    StartTimesStep(next, segs);
  }

  /** Start times are in enqueue order, and every segment ends by the final
      queue end. */
  lemma {:induction false} StartTimesOrdered(next: real, segs: seq<Segment>)
    requires Durations(segs)
    ensures var starts := StartTimes(next, segs);
            && (forall i, j :: 0 <= i <= j < |segs| ==> starts[i] <= starts[j])
            && (forall i :: 0 <= i < |segs| ==> starts[i] + segs[i].duration <= QueueEnd(next, segs))
            && next <= QueueEnd(next, segs)
    decreases |segs|
  {
    if segs != [] {
      var s := StartTime(next, segs[0].currentTime);
      var rest := segs[1..];
      assert Durations(rest) by {
        forall i | 0 <= i < |rest| ensures rest[i].duration >= 0.0 { assert rest[i] == segs[i + 1]; }
      }
      StartTimesOrdered(s + segs[0].duration, rest);
      StartTimesNoOverlap(s + segs[0].duration, rest);
      var tail := StartTimes(s + segs[0].duration, rest);
      var starts := StartTimes(next, segs);
      assert starts == [s] + tail;
      forall i, j | 0 <= i <= j < |segs| ensures starts[i] <= starts[j] {
        if i == 0 && j > 0 {
          assert starts[j] == tail[j - 1] && tail[0] <= tail[j - 1];
        } else if i > 0 {
          assert starts[i] == tail[i - 1] && starts[j] == tail[j - 1];
        }
      }
      forall i | 0 <= i < |segs| ensures starts[i] + segs[i].duration <= QueueEnd(next, segs) {
        if i > 0 { assert starts[i] == tail[i - 1] && segs[i] == rest[i - 1]; }
      }
    }
  }

  /** The playback queue refs: the queue end and the set of sources that
      were scheduled and have not ended. */
  datatype Queue = Queue(nextStartTime: real, scheduled: set<BufferSource>)

  /** The queue after a flush: nothing scheduled, queue end back at 0. */
  const Idle: Queue := Queue(0.0, {})

  /** After a flush, a segment enqueued at a non-negative clock starts right
      away, at the clock. */
  lemma FlushedStartsNow(currentTime: real)
    requires currentTime >= 0.0
    ensures StartTime(Idle.nextStartTime, currentTime) == currentTime
  {
  }

  /** An `AudioBufferSourceNode`: its buffer's duration, the time it was
      started at, and whether it was stopped. */
  class BufferSource {
    const duration: real
    var startTime: real
    var stopped: bool

    /** `ctx.createBufferSource()` with the decoded buffer attached. */
    constructor (duration: real)
      requires duration >= 0.0
      ensures this.duration == duration && startTime == 0.0 && !stopped
    {
      this.duration := duration;
      startTime := 0.0;
      stopped := false;
    }

    /** `source.start(when)`. */
    method Start(when: real)
      modifies this`startTime
      ensures startTime == when
    {
      startTime := when;
    }

    /** `source.stop()`. */
    method Stop()
      modifies this`stopped
      ensures stopped
    {
      stopped := true;
    }
  }
}
