/**
 * The clip dispatcher (src/api/app/services/video_task_manager.py): the loop
 * that cuts a clip into consecutive frame windows, one analysis job per
 * window, and the translation of a job's state into a (label, payload) pair.
 */
module TaskManager {
  import opened AnnotationSchema

  // ---------------------------------------------------------------------------
  // Frame windows
  // ---------------------------------------------------------------------------

  /** The frames [start, end) of one analysis job. */
  datatype Window = Window(start: int, end: int)

  function IntMin(a: int, b: int): int { if a <= b then a else b }

  /**
   * The windows of `range(0, frame_count, step)` with
   * `end_frame = min(start_frame + step, frame_count)`. `step` is
   * `int(interval * fps)`; `range` rejects a step of 0.
   */
  method SegmentWindows(frameCount: int, step: int) returns (ws: seq<Window>)
    requires step > 0
    ensures forall k :: 0 <= k < |ws| ==> ws[k] == Window(k * step, IntMin(k * step + step, frameCount))
    ensures forall k :: 0 <= k < |ws| ==> 0 <= ws[k].start < ws[k].end <= frameCount
    ensures forall k :: 0 <= k < |ws| - 1 ==> ws[k].end == ws[k + 1].start
    ensures frameCount <= 0 <==> |ws| == 0
    ensures |ws| > 0 ==> ws[0].start == 0 && ws[|ws| - 1].end == frameCount
    ensures frameCount > 0 ==> (|ws| - 1) * step < frameCount <= |ws| * step
  {
    ws := [];
    var i := 0;
    while i < frameCount
      invariant i == |ws| * step
      invariant forall k :: 0 <= k < |ws| ==> ws[k] == Window(k * step, IntMin(k * step + step, frameCount))
      invariant forall k :: 0 <= k < |ws| ==> 0 <= ws[k].start < ws[k].end <= frameCount
      invariant forall k :: 0 <= k < |ws| - 1 ==> ws[k].end == ws[k + 1].start
      invariant |ws| > 0 ==> ws[|ws| - 1].end == IntMin(i, frameCount) && (|ws| - 1) * step < frameCount
      decreases frameCount - i
    {
      var startFrame := i;
      var endFrame := IntMin(i + step, frameCount);
      ws := ws + [Window(startFrame, endFrame)];
      i := i + step;
    }
  }

  /** The window count is the ceiling of frame_count / step, as `range` computes it. */
  lemma WindowCountIsCeiling(frameCount: int, step: int, n: nat)
    requires step > 0 && frameCount > 0
    requires (n - 1) * step < frameCount <= n * step
    ensures n == (frameCount + step - 1) / step
  {
    var q := (frameCount + step - 1) / step;
    var r := (frameCount + step - 1) % step;
    assert frameCount + step - 1 == q * step + r && 0 <= r < step;
    if q < n {
      MulMonotone(q, n - 1, step);
    } else if q > n {
      MulMonotone(n + 1, q, step);
    }
  }

  lemma MulMonotone(a: int, b: int, c: int)
    requires a <= b && c > 0
    ensures a * c <= b * c
  {
  }

  // ---------------------------------------------------------------------------
  // Job states
  // ---------------------------------------------------------------------------

  /** What the result backend holds for a job id: its state and, once it succeeded, its items. */
  datatype Job = Job(state: string, items: seq<Dict>)

  /** The second half of `get_task_status`'s answer. */
  datatype Payload = Results(items: seq<Dict>) | Message(text: string)

  datatype TaskStatus = TaskStatus(state: string, payload: Payload)

  const KnownStates: set<string> := {"SUCCESS", "FAILURE", "STARTED", "PENDING", "RETRY"}

  const FailureMessage: string := "An error occurred while processing the video clip"
  const StartedMessage: string := "The video clip is still being processed"
  const PendingMessage: string := "The video clip is in the queue"
  const RetryMessage: string := "The video clip is being retried"
  const UnknownMessage: string := "The video clip status is unknown"

  /**
   * `get_task_status`: the state is passed through unchanged; a success
   * carries the job's items, every other state a fixed message, and a
   * state outside the five known ones the "unknown" message.
   */
  function GetTaskStatus(job: Job): (r: TaskStatus)
    ensures r.state == job.state
    ensures r.payload.Results? <==> job.state == "SUCCESS"
    ensures r.payload.Results? ==> r.payload.items == job.items
    ensures r.payload.Message? ==> (r.payload.text == UnknownMessage <==> job.state !in KnownStates)
  {
    if job.state == "SUCCESS" then TaskStatus("SUCCESS", Results(job.items))
    else if job.state == "FAILURE" then TaskStatus("FAILURE", Message(FailureMessage))
    else if job.state == "STARTED" then TaskStatus("STARTED", Message(StartedMessage))
    else if job.state == "PENDING" then TaskStatus("PENDING", Message(PendingMessage))
    else if job.state == "RETRY" then TaskStatus("RETRY", Message(RetryMessage))
    else TaskStatus(job.state, Message(UnknownMessage))
  }

  /** Distinct states other than success answer with distinct messages, unless both are unknown. */
  lemma MessagesTellStatesApart(a: Job, b: Job)
    requires a.state != b.state && a.state != "SUCCESS" && b.state != "SUCCESS"
    requires a.state in KnownStates || b.state in KnownStates
    ensures GetTaskStatus(a).payload != GetTaskStatus(b).payload
  {
  }
}
