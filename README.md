# Push-up repetition counter

A model of the counting core of the push-up counter service (`app.py`). The
service reads an uploaded video frame by frame. It asks a pose detector for each
frame's body landmarks and keeps two module-level variables: `counter`, the
number of push-ups seen, and `status`, true while the body is in the up
position. A frame with a detected pose is *up* when both elbows are strictly
above (smaller image y than) their shoulders. An up frame while `status` is
down adds one to `counter` and sets `status`. An up frame while `status` is
already up changes nothing. A detected frame that is not up sets `status` to
down. A frame without a pose changes nothing. The request handler
folds this step over all frames. It keeps one output frame per input frame and
reports `counter` once frame reading stops (see "## Left out" for the empty
and undecodable videos).

The model has two modules:

- `Counting` (`counting.dfy`) holds the values. `Pose` is the four landmark
  heights, and an `Observation` is an `Option<Pose>`. `IsUp` is the frame
  classification. `CounterState` is the pair of globals. `Next` is one frame's
  transition and `Run` is its fold over a video. `Rises` is an independent
  reference: it counts the adjacent (down, up) pairs in the sequence of
  classifications of the detected frames (`Detected`), with the starting status
  put in front (`Repetitions`). The lemmas relate the fold to that reference,
  to concatenation and to monotonicity, and work through examples.
- `App` (`app.dfy`) is the imperative side. Class `Counter` has the two globals
  as fields. `Step` is the counting part of `process_frame`. `ProcessFrame` is
  the whole of `process_frame`, with the detector passed in as a function. Its
  drawing is reduced to a `Processed` value that records the count shown on the
  frame (`Overlay`). `Observe` defines the detector's results for a video: the
  detector applied to each frame, in frame order. The contracts of
  `ProcessVideo` and `ProcessUpload` are stated with `Overlay` and `Observe`.
  `ProcessVideo` is the loop of `process_video`, and its loop invariant
  ties the fields to `Run` over the frames read so far. The source keeps one
  counter for all requests and never resets it. So `ProcessVideo` starts from
  whatever state the object holds. `ProcessUpload` gives each upload a fresh
  counter (see Findings).

Landmark y-coordinates are `real`. The source only compares them with `<`, so
no floating-point arithmetic is involved.

Three details of the code shape the model:

- The code has no separate initial state. `status` starts at up, so a leading
  up frame is not counted, a leading down frame just records down, and frames
  without a pose keep the start state.
- The code reads the shoulder and elbow landmarks whenever any pose is
  detected and applies no per-landmark confidence test of its own. So a frame
  is either undetected (`None`) or classified from its four heights.
- The code draws the skeleton and the count only on frames where a pose was
  detected (the `putText` call is inside the detection branch). Frames without
  a pose are returned unchanged, and `Overlay` follows this.

## Model

| member | source | states |
|---|---|---|
| `Counting.Next` | app.py:46-51 | A frame with no pose leaves the state unchanged. After a detected frame the status equals that frame's up/down classification. The count rises by exactly one if and only if the frame is up and the previous status was down; otherwise it stays the same. |
| `Counting.Run` | app.py:73-77 | Over a video the count never decreases and grows by at most one per frame. |
| `Counting.UpIsStrictOnBothSides` | app.py:46 | An elbow level with or below its shoulder, on either side, makes the frame not up: ties and one-sided raises classify as down. |
| `Counting.NotRaisedOnBothSidesIsDown` | app.py:46-51 | From any state, a detected frame with a tie or an elbow below its shoulder on either side keeps the count and sets the status to down. |
| `Counting.Detected` | app.py:28 | The detected frames' classifications are at most as many as the frames, and there are none exactly when no frame has a pose. |
| `Counting.RunAppend` | app.py:16-20 | The state persists across calls: processing one video and then another gives the same counter and status as processing their concatenation. |
| `Counting.RunSnoc` | app.py:73-77 | Each frame read is one more step of the fold, applied to the state left by the frames before it. |
| `Counting.RunPrefixMonotone` | app.py:47-51 | The running count after a longer prefix of a video is at least the count after a shorter one and at most that count plus the number of frames in between. |
| `Counting.RunCountsRises` | app.py:46-51 | The count after a video is the start count plus the number of down-to-up transitions among the detected frames, with the starting status as the frame before the first. Frames without a pose are skipped and do not break a transition. The final status is that of the last detected frame, or the starting status if no pose was ever detected. |
| `Counting.AllUndetectedChangesNothing` | app.py:28 | A video in which no pose is ever detected leaves counter and status as they were. |
| `Counting.Examples` | app.py:16-17 | From the initial state: the empty video gives 0; [down, up, down, up] gives 2; [down, up] three times gives 3; [up, down, up] gives 1; [down, none, up] gives 1; [up, up] gives 0; [down, up, level, up] and [down, up, one elbow raised, up] give 2, because the level frame and the one-sided frame count as down and so end the up phase. |
| `App.Counter.constructor` | app.py:16-17 | A new counter starts at count 0 with status up. |
| `App.Counter.Step` | app.py:28-51 | The fields after the step are `Next` of the fields before. A frame without a pose changes neither field. The count grows by at most one. |
| `App.Counter.ProcessFrame` | app.py:19-56 | The detector's result for the frame drives one step. The returned frame carries the overlay with the updated count when a pose was detected, and is returned unchanged otherwise. |
| `App.Counter.ProcessVideo` | app.py:71-79 | Exactly one output frame per input frame, in input order. Output frame k shows the running count after frames 0..k. The final fields are `Run` of the starting fields over the detector's results. The reported count is the counter after the last frame. |
| `App.ProcessUpload` | app.py:71-79 | With a fresh counter per upload, the output keeps the input frames in order. The reported count is the number of down-to-up transitions in this video alone, starting from the up position. |
| `App.SecondUploadReportsCumulativeCount` | app.py:72-79 | With the shared counter, uploading a one-repetition video twice reports 1 and then 2. |

## Findings

| source | as written | input that shows it | evidently intended | confidence | as-written member | corrected member |
|---|---|---|---|---|---|---|
| app.py:16-17, 72-79 | `counter` and `status` are module globals that no request resets, so each upload's reported count includes every earlier upload's repetitions. | The video [down, up] uploaded twice reports 1 for the first upload and 2 for the second. | Each upload reports its own repetitions; the handler initialises a per-request `counters = 0` (line 72). | medium, not executed | `App.SecondUploadReportsCumulativeCount` | `App.ProcessUpload` |

## Left out

- HTTP routing, request parsing, JSON responses and CORS: service glue with no counting logic.
- Writing the upload to a temporary file, deleting it, and serving `output/<filename>`: file I/O.
- OpenCV video capture, frame reading, colour conversion and release: frames are opaque values of a type parameter `F`, and a video is the finite sequence of its frames. End of stream is the end of that sequence.
- MediaPipe pose detection and its confidence settings: a foreign call, passed in as the total function `detect`. Its result is `None` or the four relevant heights.
- Drawing the skeleton and the text overlay: image side effects. Only what they depend on is kept: whether a pose was detected, and the count shown.
- moviepy encoding of the output video at 25 frames per second: an external library.
- The empty or undecodable video: when `cap.read()` fails on the first frame, the handler passes an empty frame list to moviepy, which raises an error, so no count is reported. `ProcessUpload` reports 0 for that input, and `ProcessVideo` reports the shared counter as it stands (the count of all earlier uploads), because the encoder is not modelled.
- A decode failure part-way through a video: the code treats it like the end of the stream and reports the partial count. The model's video is the sequence of frames read before reading stopped, so it cannot tell the two apart.
- Concurrency between requests sharing the globals: no threads or processes are modelled. The sharing itself is modelled by one `Counter` object used across calls.
