/** The imperative side of app.py: the `counter`/`status` globals as an object,
    the per-frame update of `process_frame` and the frame loop of
    `process_video`. Pose detection is a foreign call and is passed in as the
    function `detect`; a video is the sequence of its frames. */
module App {
  import opened Counting

  /** An output frame. When a pose was detected the skeleton and the text
      "Push-ups: <shownCount>" are drawn on it; otherwise it is returned as is. */
  datatype Processed<F> = Plain(frame: F) | Annotated(frame: F, shownCount: nat)

  /** The output frame for `frame` when the detector saw `obs` and the counter
      reads `count` after the step. */
  function Overlay<F>(frame: F, obs: Observation, count: nat): Processed<F> {
    if obs.Some? then Annotated(frame, count) else Plain(frame)
  }

  /** The detector applied to every frame, in order. */
  function Observe<F>(frames: seq<F>, detect: F -> Observation): seq<Observation> {
    seq(|frames|, k requires 0 <= k < |frames| => detect(frames[k]))
  }

  /** The counter state of app.py. */
  class Counter {
    var count: nat
    var status: bool

    /** The abstract state: the two fields as a value. */
    function State(): CounterState
      reads this
    {
      CounterState(count, status)
    }

    /** The state at module load: counter 0, status up. */
    constructor ()
      ensures State() == Initial
    {
      count := 0;
      status := true;
    }

    /** The counting part of process_frame. */
    method Step(obs: Observation)
      modifies this
      ensures State() == Next(old(State()), obs)
      ensures obs.None? ==> count == old(count) && status == old(status)
      ensures old(count) <= count <= old(count) + 1
    {
      if obs.Some? {
        if IsUp(obs.value) {
          if !status {
            count := count + 1;
            status := true;
          }
        } else {
          status := false;
        }
      }
    }

    /** process_frame: detect the pose, step the counter, draw the overlay. */
    method ProcessFrame<F>(frame: F, detect: F -> Observation) returns (out: Processed<F>)
      modifies this
      ensures State() == Next(old(State()), detect(frame))
      ensures out == Overlay(frame, detect(frame), count)
    {
      var results := detect(frame);
      Step(results);
      out := Overlay(frame, results, count);
    }

    /** process_video: fold process_frame over the frames in order, collecting
        one output frame per input frame, then report the counter. */
    method ProcessVideo<F>(frames: seq<F>, detect: F -> Observation)
      returns (processed: seq<Processed<F>>, counters: nat)
      modifies this
      ensures State() == Run(old(State()), Observe(frames, detect))
      ensures counters == count
      ensures |processed| == |frames|
      ensures forall k :: 0 <= k < |frames| ==>
        processed[k] == Overlay(frames[k], detect(frames[k]),
                                Run(old(State()), Observe(frames, detect)[..k + 1]).count)
    {
      ghost var obs := Observe(frames, detect);
      assert obs[..0] == [];
      processed := [];
      counters := 0;
      var i := 0;
      while i < |frames|
        invariant 0 <= i <= |frames|
        invariant |processed| == i
        invariant State() == Run(old(State()), obs[..i])
        invariant forall k :: 0 <= k < i ==>
          processed[k] == Overlay(frames[k], detect(frames[k]), Run(old(State()), obs[..k + 1]).count)
      {
        assert obs[..i + 1] == obs[..i] + [obs[i]];
        RunSnoc(old(State()), obs[..i], obs[i]);
        var processedFrame := ProcessFrame(frames[i], detect);
        processed := processed + [processedFrame];
        i := i + 1;
      }
      assert obs[..i] == obs;
      counters := count;
    }
  }

  /** One upload handled by a counter of its own: the reported count is the
      number of down-to-up transitions in this video alone, with the first
      detected frame compared against the up position. */
  method ProcessUpload<F>(frames: seq<F>, detect: F -> Observation)
    returns (processed: seq<Processed<F>>, counters: nat)
    ensures |processed| == |frames|
    ensures forall k :: 0 <= k < |frames| ==> processed[k].frame == frames[k]
    ensures counters == Repetitions(true, Observe(frames, detect))
  {
    var session := new Counter();
    processed, counters := session.ProcessVideo(frames, detect);
    RunCountsRises(Initial, Observe(frames, detect));
  }

  /** With the counter shared by every upload, as app.py keeps it, the second
      upload of a video with one repetition reports two. */
  method SecondUploadReportsCumulativeCount() returns (first: nat, second: nat)
    ensures first == 1 && second == 2
  {
    var video := [DownPose, UpPose];
    var detect := (p: Pose) => Some(p);
    var shared := new Counter();
    var obs := Observe(video, detect);
    assert obs == [Some(DownPose), Some(UpPose)];
    assert Run(CounterState(0, false), [Some(UpPose)]) == CounterState(1, true);
    assert Run(CounterState(1, false), [Some(UpPose)]) == CounterState(2, true);
    var out1, out2;
    out1, first := shared.ProcessVideo(video, detect);
    out2, second := shared.ProcessVideo(video, detect);
  }
}
