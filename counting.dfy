/** The push-up repetition counter of app.py, as values: the per-frame
    classification, the per-frame state transition and its fold over a video,
    together with an independent reference count of down-to-up transitions. */
module Counting {

  datatype Option<+T> = None | Some(value: T)

  /** The four landmark heights the counter looks at in one frame. Image y
      grows downward, so "elbow above shoulder" means a smaller y. */
  datatype Pose = Pose(leftShoulderY: real, rightShoulderY: real,
                       leftElbowY: real, rightElbowY: real)

  /** What the pose detector yields for one frame: no pose, or the four heights. */
  type Observation = Option<Pose>

  /** The two globals of app.py: `counter` and `status` (true = up position). */
  datatype CounterState = CounterState(count: nat, up: bool)

  /** The state the module starts in: counter 0, status up. */
  const Initial := CounterState(0, true)

  /** A frame is "up" when both elbows are strictly above their shoulders. */
  predicate IsUp(p: Pose) {
    p.leftElbowY < p.leftShoulderY && p.rightElbowY < p.rightShoulderY
  }

  /** One frame's effect on the counter state. */
  function Next(s: CounterState, obs: Observation): (r: CounterState)
    // a frame without a pose changes nothing
    ensures obs.None? ==> r == s
    // after a detected frame the status is that frame's classification
    ensures obs.Some? ==> r.up == IsUp(obs.value)
    // the count goes up by one exactly on a down-to-up transition, else it stays
    ensures r.count == s.count + 1 <==> obs.Some? && IsUp(obs.value) && !s.up
    ensures r.count == s.count || r.count == s.count + 1
  {
    match obs
    case None => s
    case Some(p) =>
      if IsUp(p) then
        if !s.up then CounterState(s.count + 1, true) else s
      else
        CounterState(s.count, false)
  }

  /** The state after a sequence of frames, processed in order. */
  function Run(s: CounterState, obs: seq<Observation>): (r: CounterState)
    ensures s.count <= r.count <= s.count + |obs|
    decreases obs
  {
    if obs == [] then s else Run(Next(s, obs[0]), obs[1..])
  }

  /** The classifications of the frames that have a pose, in order. */
  function Detected(obs: seq<Observation>): (r: seq<bool>)
    ensures |r| <= |obs|
    ensures r == [] <==> forall k :: 0 <= k < |obs| ==> obs[k].None?
  {
    if obs == [] then []
    else if obs[0].Some? then [IsUp(obs[0].value)] + Detected(obs[1..])
    else Detected(obs[1..])
  }

  /** Reference count: the number of adjacent pairs (down, up) in `ups`. */
  function Rises(ups: seq<bool>): nat {
    if |ups| < 2 then 0
    else (if !ups[0] && ups[1] then 1 else 0) + Rises(ups[1..])
  }

  /** The number of repetitions a video adds, starting from status `up`. */
  function Repetitions(up: bool, obs: seq<Observation>): nat {
    Rises([up] + Detected(obs))
  }

  /** The status after a video, starting from status `up`: that of the last
      detected frame, or `up` itself when no frame has a pose. */
  function FinalUp(up: bool, obs: seq<Observation>): bool {
    var ups := [up] + Detected(obs);
    ups[|ups| - 1]
  }

  // ---------------------------------------------------------------------------
  // Classification

  /** Ties and one-sided raises classify as down. */
  lemma UpIsStrictOnBothSides(p: Pose)
    ensures p.leftElbowY >= p.leftShoulderY ==> !IsUp(p)
    ensures p.rightElbowY >= p.rightShoulderY ==> !IsUp(p)
  {
  }

  /** A detected frame with an elbow level with or below its shoulder, on either
      side, is a down frame: it keeps the count and sets the status to down,
      whatever the state before. */
  lemma NotRaisedOnBothSidesIsDown(s: CounterState, p: Pose)
    requires p.leftElbowY >= p.leftShoulderY || p.rightElbowY >= p.rightShoulderY
    ensures Next(s, Some(p)) == CounterState(s.count, false)
  {
  }

  // ---------------------------------------------------------------------------
  // The fold

  /** Processing two videos one after the other is processing their concatenation. */
  lemma {:induction false} RunAppend(s: CounterState, a: seq<Observation>, b: seq<Observation>)
    ensures Run(s, a + b) == Run(Run(s, a), b)
    decreases a
  {
    if a == [] {
      assert a + b == b;
    } else {
      assert (a + b)[0] == a[0];
      assert (a + b)[1..] == a[1..] + b;
      RunAppend(Next(s, a[0]), a[1..], b);
    }
  }

  /** One more frame is one more step. */
  lemma RunSnoc(s: CounterState, obs: seq<Observation>, o: Observation)
    ensures Run(s, obs + [o]) == Next(Run(s, obs), o)
  {
    RunAppend(s, obs, [o]);
    assert Run(Run(s, obs), [o]) == Run(Next(Run(s, obs), o), []);
  }

  /** The running count never decreases from one prefix of a video to a longer one,
      and grows by at most the number of frames in between. */
  lemma RunPrefixMonotone(s: CounterState, obs: seq<Observation>, i: nat, j: nat)
    requires i <= j <= |obs|
    ensures Run(s, obs[..i]).count <= Run(s, obs[..j]).count <= Run(s, obs[..i]).count + (j - i)
  {
    assert obs[..j] == obs[..i] + obs[i..j];
    RunAppend(s, obs[..i], obs[i..j]);
  }

  /** The count after a video is the start count plus the number of down-to-up
      transitions among its detected frames, the start status counting as the
      frame before the first; frames without a pose are skipped. The final status
      is that of the last detected frame. */
  lemma {:induction false} RunCountsRises(s: CounterState, obs: seq<Observation>)
    ensures Run(s, obs) == CounterState(s.count + Repetitions(s.up, obs), FinalUp(s.up, obs))
    decreases obs
  {
    if obs != [] {
      var rest := obs[1..];
      RunCountsRises(Next(s, obs[0]), rest);
      match obs[0]
      case None =>
        assert Detected(obs) == Detected(rest);
      case Some(p) =>
        var u := IsUp(p);
        assert Detected(obs) == [u] + Detected(rest);
        var tail := [u] + Detected(rest);
        assert ([s.up] + Detected(obs))[1..] == tail;
        assert Rises([s.up] + Detected(obs)) == (if !s.up && u then 1 else 0) + Rises(tail);
    }
  }

  /** A video in which no pose is ever detected leaves the state as it was. */
  lemma {:induction false} AllUndetectedChangesNothing(s: CounterState, obs: seq<Observation>)
    requires forall k :: 0 <= k < |obs| ==> obs[k].None?
    ensures Run(s, obs) == s
  {
    RunCountsRises(s, obs);
  }

  // ---------------------------------------------------------------------------
  // Worked examples from the initial state (counter 0, status up)

  const UpPose := Pose(0.5, 0.5, 0.3, 0.3)
  const DownPose := Pose(0.5, 0.5, 0.7, 0.7)
  const LevelPose := Pose(0.5, 0.5, 0.5, 0.5)
  const LeftOnlyPose := Pose(0.5, 0.5, 0.3, 0.7)

  /** From the initial state a leading up frame is not counted; ties and a
      single raised elbow are down; a frame without a pose bridges a transition. */
  lemma Examples()
    ensures Run(Initial, []).count == 0
    ensures Run(Initial, [Some(DownPose), Some(UpPose), Some(DownPose), Some(UpPose)]).count == 2
    ensures Run(Initial, [Some(DownPose), Some(UpPose), Some(DownPose), Some(UpPose),
                          Some(DownPose), Some(UpPose)]).count == 3
    ensures Run(Initial, [Some(UpPose), Some(DownPose), Some(UpPose)]).count == 1
    ensures Run(Initial, [Some(DownPose), None, Some(UpPose)]).count == 1
    ensures Run(Initial, [Some(UpPose), Some(UpPose)]).count == 0
    // a level frame and a one-sided raise break an up phase, so the next up counts
    ensures Run(Initial, [Some(DownPose), Some(UpPose), Some(LevelPose), Some(UpPose)]).count == 2
    ensures Run(Initial, [Some(DownPose), Some(UpPose), Some(LeftOnlyPose), Some(UpPose)]).count == 2
  {
    var d, u := Some(DownPose), Some(UpPose);

    // each step below unfolds Run once from the back of the example
    assert Run(CounterState(2, false), [u]) == CounterState(3, true);
    assert Run(CounterState(2, true), [d, u]) == CounterState(3, true);
    assert Run(CounterState(1, false), [u, d, u]) == CounterState(3, true);
    assert Run(CounterState(1, true), [d, u, d, u]) == CounterState(3, true);
    assert Run(CounterState(0, false), [u, d, u, d, u]) == CounterState(3, true);

    assert Run(CounterState(1, false), [u]) == CounterState(2, true);
    assert Run(CounterState(1, true), [d, u]) == CounterState(2, true);
    assert Run(CounterState(0, false), [u, d, u]) == CounterState(2, true);
    assert Run(CounterState(1, true), [Some(LevelPose), u]) == CounterState(2, true);
    assert Run(CounterState(0, false), [u, Some(LevelPose), u]) == CounterState(2, true);
    assert Run(CounterState(1, true), [Some(LeftOnlyPose), u]) == CounterState(2, true);
    assert Run(CounterState(0, false), [u, Some(LeftOnlyPose), u]) == CounterState(2, true);

    assert Run(CounterState(0, false), [u]) == CounterState(1, true);
    assert Run(CounterState(0, true), [d, u]) == CounterState(1, true);
  }
}
