// The web client's batch-indexing monitor: the pure reducers that build a
// new batch state from the old one (retry, remove, replace the list, fold
// in a backend status report) and the polling object whose fetch step
// keeps the last report it saw and raises the completion callbacks.
// Dates coming from the backend are kept as their text; the clock is the
// `now` parameter (milliseconds).

module BatchStatus {
  import opened Common
  import StageProgress

  const Pending := "pending"
  const Processing := "processing"
  const Completed := "completed"
  const Error := "error"
  const Paused := "paused"

  /** A video of the batch, as the client shows it. */
  datatype VideoItem = VideoItem(id: string, name: string, status: string, currentStage: Option<string>,
                                 progress: int, error: Option<string>, retryCount: Option<int>,
                                 startTime: Option<string>, completedTime: Option<string>)

  /** The batch as the client shows it. */
  datatype BatchState = BatchState(totalVideos: int, completedVideos: int, failedVideos: int,
                                   currentProcessingVideo: Option<string>, overallProgress: int,
                                   status: string, estimatedTimeRemaining: Option<int>,
                                   startTime: Option<int>, endTime: Option<int>, videos: seq<VideoItem>)

  /** One video's entry in the backend's report, every field the report carries. */
  datatype VideoDetail = VideoDetail(status: string, stage: Option<string>, progress: int, error: Option<string>,
                                     startTime: Option<string>, completedTime: Option<string>)

  /**
   * The backend's indexing report for a session, every field it carries:
   * two reports are the same exactly when their serialisations are.
   */
  datatype BackendStatus = BackendStatus(success: bool, chatId: string, status: string, message: string,
                                         currentStep: string, totalVideos: Option<int>, completedVideos: Option<int>,
                                         indexedVideos: Option<seq<string>>, currentVideo: Option<string>,
                                         videoDetails: Option<map<string, VideoDetail>>, error: Option<string>)

  /** The callbacks one fetch can raise, in the order it raises them. */
  datatype Event = VideoCompletedEvent(video: VideoItem) | BatchCompletedEvent | ErrorEvent(message: string)

  function IsCompleted(v: VideoItem): bool { v.status == Completed }
  function IsFailed(v: VideoItem): bool { v.status == Error }

  /** A status can be completed or failed, not both, so the two counts never exceed the list. */
  lemma {:induction false} CountsFit(videos: seq<VideoItem>)
    ensures Count(videos, IsCompleted) + Count(videos, IsFailed) <= |videos|
  {
    if |videos| > 0 {
      CountsFit(videos[1..]);
    }
  }

  /**
   * `Math.round(100 * completed / total)` as written, where JavaScript
   * gives NaN for 0 / 0 and Infinity for n / 0: None stands for a value
   * that is not a finite number.
   */
  function RatioPercentAsWritten(completed: int, total: int): (r: Option<int>)
    ensures total == 0 <==> r.None?
  {
    if total == 0 then None else Some(StageProgress.Round(completed as real / total as real * 100.0))
  }

  /** Before any report with zero videos in the batch, the as-written progress is not a number. */
  lemma EmptyBatchProgressNaN()
    ensures RatioPercentAsWritten(0, 0).None?
  {
  }

  /** A share of a positive total lies in 0..1, and all of it is exactly 1. */
  lemma FractionBounds(part: real, total: real)
    requires total > 0.0
    ensures 0.0 <= part <= total ==> 0.0 <= part / total <= 1.0
    ensures part == total ==> part / total == 1.0
  {
    var q := part / total;
    assert q * total == part;
    assert (1.0 - q) * total == total - part;
    assert q < 0.0 ==> q * total < 0.0;
    assert 1.0 - q < 0.0 ==> (1.0 - q) * total < 0.0;
  }

  /**
   * The evidently intended overall progress, guarded as `removeVideo` and
   * `updateVideos` guard it: 0 unless the total is positive, and within
   * 0..100 whenever the completed count lies within the total.
   */
  function RatioPercent(completed: int, total: int): (r: int)
    ensures total <= 0 ==> r == 0
    ensures total > 0 ==> Some(r) == RatioPercentAsWritten(completed, total)
    ensures 0 <= completed <= total ==> 0 <= r <= 100
    ensures 0 < completed == total ==> r == 100
  {
    if total <= 0 then 0
    else
      FractionBounds(completed as real, total as real);
      StageProgress.Round(completed as real / total as real * 100.0)
  }

  /**
   * The overall progress `mapBackendStatusToFrontend` computes with only
   * its division by zero corrected to 0: a negative total, which
   * `removeVideo` can produce, keeps the code's rounded percentage.
   */
  function MappedProgress(completed: int, total: int): (r: int)
    ensures total == 0 ==> r == 0
    ensures total != 0 ==> Some(r) == RatioPercentAsWritten(completed, total)
    ensures total > 0 ==> r == RatioPercent(completed, total)
  {
    if total == 0 then 0 else StageProgress.Round(completed as real / total as real * 100.0)
  }

  /** One indexed video against a total driven to -1 reports -100%. */
  lemma NegativeTotalProgress()
    ensures MappedProgress(1, -1) == -100
  {
    assert 1 as real / -1 as real * 100.0 == -100.0;
  }

  // ------------------------------------------------------------ reducers

  /** The retried copy of a video: pending, no error, one more retry. */
  function Retried(v: VideoItem): VideoItem
  {
    v.(status := Pending, error := None, retryCount := Some((if v.retryCount.Some? then v.retryCount.value else 0) + 1))
  }

  predicate HasId(videos: seq<VideoItem>, id: string)
  {
    exists k :: 0 <= k < |videos| && videos[k].id == id
  }

  /**
   * `retryVideo`: when some video has the id, every video with that id is
   * made pending, loses its error and counts one more retry; nothing else
   * changes, and an unknown id changes nothing.
   */
  function RetryVideo(state: BatchState, id: string): (r: BatchState)
    ensures !HasId(state.videos, id) ==> r == state
    ensures r == state.(videos := r.videos)
    ensures |r.videos| == |state.videos|
    ensures forall k :: 0 <= k < |state.videos| ==>
              r.videos[k] == (if state.videos[k].id == id then Retried(state.videos[k]) else state.videos[k])
  {
    if !HasId(state.videos, id) then state
    else state.(videos := seq(|state.videos|, k requires 0 <= k < |state.videos| =>
                                if state.videos[k].id == id then Retried(state.videos[k]) else state.videos[k]))
  }

  /** A retried video is pending with no error, and its retry count is one more than before (0 when unset). */
  lemma RetryCounts(state: BatchState, id: string, k: nat)
    requires k < |state.videos| && state.videos[k].id == id
    ensures RetryVideo(state, id).videos[k].status == Pending
    ensures RetryVideo(state, id).videos[k].error.None?
    ensures state.videos[k].retryCount.None? ==> RetryVideo(state, id).videos[k].retryCount == Some(1)
    ensures state.videos[k].retryCount.Some? ==>
              RetryVideo(state, id).videos[k].retryCount == Some(state.videos[k].retryCount.value + 1)
  {
    assert HasId(state.videos, id);
  }

  /** The videos without that id, in order. */
  function Without(videos: seq<VideoItem>, id: string): (r: seq<VideoItem>)
    ensures |r| <= |videos|
    ensures forall v :: v in r <==> v in videos && v.id != id
    ensures !HasId(videos, id) ==> r == videos
    ensures HasId(videos, id) ==> |r| < |videos|
  {
    if |videos| == 0 then []
    else
      var rest := Without(videos[1..], id);
      assert HasId(videos, id) && videos[0].id != id ==> HasId(videos[1..], id) by {
        if HasId(videos, id) && videos[0].id != id {
          var k :| 0 <= k < |videos| && videos[k].id == id;
          assert videos[1..][k - 1].id == id;
        }
      }
      if videos[0].id == id then rest
      else
        assert videos == [videos[0]] + videos[1..];
        [videos[0]] + rest
  }

  /**
   * `removeVideo`: drops the videos with that id, recounts completed and
   * failed from what is left, and takes one off the total whether or not a
   * video had the id; the progress is 0 when the new total is not positive.
   */
  function RemoveVideo(state: BatchState, id: string): (r: BatchState)
    ensures r.videos == Without(state.videos, id)
    ensures r.totalVideos == state.totalVideos - 1
    ensures r.completedVideos == Count(r.videos, IsCompleted) && r.failedVideos == Count(r.videos, IsFailed)
    ensures r.totalVideos <= 0 ==> r.overallProgress == 0
    ensures r.totalVideos > 0 ==> Some(r.overallProgress) == RatioPercentAsWritten(r.completedVideos, r.totalVideos)
    ensures r == state.(videos := r.videos, totalVideos := r.totalVideos, completedVideos := r.completedVideos,
                        failedVideos := r.failedVideos, overallProgress := r.overallProgress)
  {
    var videos := Without(state.videos, id);
    var total := state.totalVideos - 1;
    var completed := Count(videos, IsCompleted);
    state.(videos := videos, totalVideos := total, completedVideos := completed,
           failedVideos := Count(videos, IsFailed), overallProgress := RatioPercent(completed, total))
  }

  /** Removing an unknown id keeps the list but still lowers the total, so the total drifts below the list length. */
  lemma RemoveUnknownDrifts(state: BatchState, id: string)
    requires !HasId(state.videos, id)
    ensures RemoveVideo(state, id).videos == state.videos
    ensures RemoveVideo(state, id).totalVideos == state.totalVideos - 1
  {
  }

  /**
   * `updateVideos`: the list is replaced, the total is its length, the two
   * counts come from it and the progress is the completed share (0 for an
   * empty list); the rest of the state is kept.
   */
  function UpdateVideos(state: BatchState, videos: seq<VideoItem>): (r: BatchState)
    ensures r.videos == videos && r.totalVideos == |videos|
    ensures r.completedVideos == Count(videos, IsCompleted) && r.failedVideos == Count(videos, IsFailed)
    ensures r.overallProgress == RatioPercent(r.completedVideos, |videos|)
    ensures r == state.(videos := r.videos, totalVideos := r.totalVideos, completedVideos := r.completedVideos,
                        failedVideos := r.failedVideos, overallProgress := r.overallProgress)
  {
    var completed := Count(videos, IsCompleted);
    state.(videos := videos, totalVideos := |videos|, completedVideos := completed,
           failedVideos := Count(videos, IsFailed), overallProgress := RatioPercent(completed, |videos|))
  }

  /** After `updateVideos` the counts fit the total and the progress is a percentage. */
  lemma UpdateVideosConsistent(state: BatchState, videos: seq<VideoItem>)
    ensures var r := UpdateVideos(state, videos);
            r.completedVideos + r.failedVideos <= r.totalVideos && 0 <= r.overallProgress <= 100
    ensures |videos| == 0 ==> UpdateVideos(state, videos).overallProgress == 0
  {
    CountsFit(videos);
  }

  /** A video updated from its backend entry: status, stage, stage progress and error come from the entry, dates only when given. */
  function ApplyDetail(v: VideoItem, d: VideoDetail): (r: VideoItem)
    ensures r.id == v.id && r.name == v.name && r.status == d.status && r.currentStage == d.stage && r.error == d.error
    ensures r.progress == (if d.stage.Some? && d.stage.value != "" then StageProgress.StageProgressOf(StageProgress.Stages, d.stage.value) else 0)
    ensures r.startTime == (if d.startTime.Some? && d.startTime.value != "" then d.startTime else v.startTime)
    ensures r.completedTime == (if d.completedTime.Some? && d.completedTime.value != "" then d.completedTime else v.completedTime)
    ensures r.retryCount == v.retryCount
  {
    var progress := if d.stage.Some? && d.stage.value != "" then StageProgress.StageProgressOf(StageProgress.Stages, d.stage.value) else 0;
    v.(status := d.status, currentStage := d.stage, progress := progress, error := d.error,
       startTime := if d.startTime.Some? && d.startTime.value != "" then d.startTime else v.startTime,
       completedTime := if d.completedTime.Some? && d.completedTime.value != "" then d.completedTime else v.completedTime)
  }

  /** The backend entries whose status is "error". */
  function FailedNames(details: map<string, VideoDetail>): set<string>
  {
    set name | name in details && details[name].status == Error
  }

  /**
   * `mapBackendStatusToFrontend`: completed comes from the indexed list (0
   * when absent), failed counts the "error" entries, each video with an
   * entry under its name is updated from it and the others are kept, the
   * remaining time is estimated from the time since the batch started, and
   * the end time is set only when the report says "completed".  The
   * progress is the code's rounded ratio with 0 in place of the NaN of an
   * empty batch.
   */
  function MapBackendStatus(backend: BackendStatus, current: BatchState, now: int): (r: BatchState)
    ensures r.completedVideos == (if backend.indexedVideos.Some? then |backend.indexedVideos.value| else 0)
    ensures r.failedVideos == (if backend.videoDetails.Some? then |FailedNames(backend.videoDetails.value)| else 0)
    ensures |r.videos| == |current.videos|
    ensures forall k :: 0 <= k < |current.videos| ==>
              r.videos[k] == (if backend.videoDetails.Some? && current.videos[k].name in backend.videoDetails.value
                              then ApplyDetail(current.videos[k], backend.videoDetails.value[current.videos[k].name])
                              else current.videos[k])
    ensures r.status == backend.status && r.currentProcessingVideo == backend.currentVideo
    ensures r.endTime == (if backend.status == Completed then Some(now) else current.endTime)
    ensures r.overallProgress == MappedProgress(r.completedVideos, current.totalVideos)
    ensures r.totalVideos == current.totalVideos && r.startTime == current.startTime
  {
    var completed := if backend.indexedVideos.Some? then |backend.indexedVideos.value| else 0;
    var failed := if backend.videoDetails.Some? then |FailedNames(backend.videoDetails.value)| else 0;
    var videos := seq(|current.videos|, k requires 0 <= k < |current.videos| =>
                    if backend.videoDetails.Some? && current.videos[k].name in backend.videoDetails.value
                    then ApplyDetail(current.videos[k], backend.videoDetails.value[current.videos[k].name])
                    else current.videos[k]);
    var elapsed := if current.startTime.Some? then (now - current.startTime.value) as real / 1000.0 else 0.0;
    current.(completedVideos := completed, failedVideos := failed,
             overallProgress := MappedProgress(completed, current.totalVideos),
             status := backend.status, currentProcessingVideo := backend.currentVideo, videos := videos,
             estimatedTimeRemaining := Some(StageProgress.EstimateRemainingTime(completed, current.totalVideos, elapsed)),
             endTime := if backend.status == Completed then Some(now) else current.endTime)
  }

  /** A report that mentions none of the batch's videos leaves every video as it was. */
  lemma UnmentionedVideosKept(backend: BackendStatus, current: BatchState, now: int)
    requires backend.videoDetails.None? || forall k :: 0 <= k < |current.videos| ==> current.videos[k].name !in backend.videoDetails.value
    ensures MapBackendStatus(backend, current, now).videos == current.videos
  {
  }

  /** The first video with that id, as `find` returns it. */
  function FindById(videos: seq<VideoItem>, id: string): (r: Option<VideoItem>)
    ensures r.Some? ==> r.value in videos && r.value.id == id
    ensures r.None? <==> !HasId(videos, id)
  {
    if |videos| == 0 then None
    else if videos[0].id == id then Some(videos[0])
    else
      var rest := FindById(videos[1..], id);
      assert HasId(videos[1..], id) ==> HasId(videos, id) by {
        if HasId(videos[1..], id) {
          var k :| 0 <= k < |videos[1..]| && videos[1..][k].id == id;
          assert videos[k + 1].id == id;
        }
      }
      assert HasId(videos, id) ==> HasId(videos[1..], id) by {
        if HasId(videos, id) {
          var k :| 0 <= k < |videos| && videos[k].id == id;
          assert videos[1..][k - 1].id == id;
        }
      }
      rest
  }

  /** A video of the new state is newly completed when it is completed and the old list's video with its id was not. */
  function NewlyCompleted(before: seq<VideoItem>, after: seq<VideoItem>): (r: seq<VideoItem>)
    ensures forall v :: v in r <==> v in after && v.status == Completed &&
                                    (FindById(before, v.id).None? || FindById(before, v.id).value.status != Completed)
  {
    Filter(after, (v: VideoItem) => v.status == Completed &&
                                   (FindById(before, v.id).None? || FindById(before, v.id).value.status != Completed))
  }

  /** The callbacks a changed report raises: each newly completed video, then the batch's completion on the transition into "completed", then a reported error. */
  function FetchEvents(backend: BackendStatus, prev: BatchState, next: BatchState): (r: seq<Event>)
    ensures BatchCompletedEvent in r <==> backend.status == Completed && prev.status != Completed
    ensures (exists m :: ErrorEvent(m) in r) <==> backend.status == Error && backend.error.Some? && backend.error.value != ""
    ensures backend.status == Error && backend.error.Some? && backend.error.value != "" ==> ErrorEvent(backend.error.value) in r
  {
    var videos := NewlyCompleted(prev.videos, next.videos);
    var completedEvents := seq(|videos|, k requires 0 <= k < |videos| => VideoCompletedEvent(videos[k]));
    var batch := if backend.status == Completed && prev.status != Completed then [BatchCompletedEvent] else [];
    var error := if backend.status == Error && backend.error.Some? && backend.error.value != "" then [ErrorEvent(backend.error.value)] else [];
    assert forall e :: e in completedEvents ==> e.VideoCompletedEvent?;
    var r := completedEvents + batch + error;
    assert error != [] ==> ErrorEvent(backend.error.value) in r by {
      if error != [] {
        assert r[|r| - 1] == ErrorEvent(backend.error.value);
      }
    }
    r
  }

  /** Once a batch is completed, a later report cannot raise its completion again. */
  lemma BatchCompletedOnce(backend: BackendStatus, prev: BatchState, next: BatchState)
    requires prev.status == Completed
    ensures BatchCompletedEvent !in FetchEvents(backend, prev, next)
  {
  }

  // ------------------------------------------------------------ the monitor

  /** What one request for the session's status came back with. */
  datatype Response = Received(status: BackendStatus) | Failed(message: string)

  /** The part of the hook's state one fetch can change: the batch, the last report seen and the error. */
  datatype Snapshot = Snapshot(state: BatchState, lastStatus: Option<BackendStatus>, error: Option<string>)

  /**
   * What one fetch leaves behind and the callbacks it raises: nothing when
   * disabled or without a chat id; a failed request records its message;
   * an unsuccessful report, or one equal to the last seen, clears the
   * error only; otherwise the report is remembered and folded in.
   */
  function Fetched(enabled: bool, chatId: string, response: Response, now: int, before: Snapshot): (Snapshot, seq<Event>)
  {
    if !enabled || chatId == "" then (before, [])
    else match response
      case Failed(message) => (before.(error := Some(message)), [ErrorEvent(message)])
      case Received(backend) =>
        if backend.success && before.lastStatus != Some(backend) then
          var next := MapBackendStatus(backend, before.state, now);
          (Snapshot(next, Some(backend), None), FetchEvents(backend, before.state, next))
        else (before.(error := None), [])
  }

  /**
   * A report of a failed batch that differs from the last one seen only in
   * its message is folded in again, and raises the same error a second time.
   */
  lemma ErrorRaisedAgain(chatId: string, backend: BackendStatus, message: string, now: int, before: Snapshot)
    requires chatId != "" && backend.success && backend.status == Error && backend.error.Some? && backend.error.value != ""
    requires before.lastStatus == Some(backend) && message != backend.message
    ensures var (after, events) := Fetched(true, chatId, Received(backend.(message := message)), now, before);
            after.lastStatus == Some(backend.(message := message)) && ErrorEvent(backend.error.value) in events
  {
  }

  /** The hook's state and its two refs: the last report seen and whether the polling interval is set. */
  class BatchMonitor {
    const chatId: string
    const enabled: bool
    var state: BatchState
    var lastStatus: Option<BackendStatus>
    var polling: bool
    var error: Option<string>

    /** The hook's initial state for the batch it was given. */
    constructor(chatId: string, enabled: bool, totalVideos: int, initialVideos: seq<VideoItem>)
      ensures this.chatId == chatId && this.enabled == enabled
      ensures state == BatchState(totalVideos, 0, 0, None, 0, Processing, None, None, None, initialVideos)
      ensures lastStatus.None? && !polling && error.None?
    {
      this.chatId := chatId;
      this.enabled := enabled;
      state := BatchState(totalVideos, 0, 0, None, 0, Processing, None, None, None, initialVideos);
      lastStatus := None;
      polling := false;
      error := None;
    }

    /**
     * `fetchStatus`: nothing when disabled or without a chat id; a failed
     * request records its message and raises it; an unsuccessful report is
     * ignored, and so is a report equal to the last one seen; otherwise
     * the report is remembered, folded into the state and its callbacks
     * are raised.
     */
    method FetchStatus(response: Response, now: int) returns (events: seq<Event>)
      modifies this
      ensures !enabled || chatId == "" ==> events == [] && unchanged(this)
      ensures enabled && chatId != "" && response.Failed? ==>
                events == [ErrorEvent(response.message)] && error == Some(response.message) &&
                state == old(state) && lastStatus == old(lastStatus)
      ensures enabled && chatId != "" && response.Received? && (!response.status.success || old(lastStatus) == Some(response.status)) ==>
                events == [] && error.None? && state == old(state) && lastStatus == old(lastStatus)
      ensures enabled && chatId != "" && response.Received? && response.status.success && old(lastStatus) != Some(response.status) ==>
                lastStatus == Some(response.status) && error.None? &&
                state == MapBackendStatus(response.status, old(state), now) &&
                events == FetchEvents(response.status, old(state), state)
      ensures (Snapshot(state, lastStatus, error), events) ==
              Fetched(enabled, chatId, response, now, Snapshot(old(state), old(lastStatus), old(error)))
      ensures polling == old(polling)
    {
      if !enabled || chatId == "" {
        return [];
      }
      error := None;
      match response
      case Failed(message) =>
        error := Some(message);
        events := [ErrorEvent(message)];
      case Received(backend) =>
        events := [];
        if backend.success && lastStatus != Some(backend) {
          lastStatus := Some(backend);
          var prev := state;
          state := MapBackendStatus(backend, prev, now);
          events := FetchEvents(backend, prev, state);
        }
    }

    /** `stopPolling`: the interval is cleared. */
    method StopPolling()
      modifies this
      ensures !polling && state == old(state) && lastStatus == old(lastStatus) && error == old(error)
    {
      polling := false;
    }

    /** `startPolling`: one fetch at once, then the interval is set. */
    method StartPolling(response: Response, now: int) returns (events: seq<Event>)
      modifies this
      ensures polling
      ensures (Snapshot(state, lastStatus, error), events) ==
              Fetched(enabled, chatId, response, now, Snapshot(old(state), old(lastStatus), old(error)))
    {
      events := FetchStatus(response, now);
      polling := true;
    }

    /** `pauseProcessing`: the batch is paused and polling stops. */
    method PauseProcessing()
      modifies this
      ensures state == old(state).(status := Paused) && !polling && lastStatus == old(lastStatus) && error == old(error)
    {
      state := state.(status := Paused);
      StopPolling();
    }

    /** `resumeProcessing`: the batch is processing again and polling restarts with one fetch. */
    method ResumeProcessing(response: Response, now: int) returns (events: seq<Event>)
      modifies this
      ensures polling
      ensures (Snapshot(state, lastStatus, error), events) ==
              Fetched(enabled, chatId, response, now, Snapshot(old(state).(status := Processing), old(lastStatus), old(error)))
    {
      state := state.(status := Processing);
      events := StartPolling(response, now);
    }

    /** `initializeProcessing`: a fresh batch of these videos, started now, counters at zero, then polling starts. */
    method InitializeProcessing(videos: seq<VideoItem>, response: Response, now: int) returns (events: seq<Event>)
      modifies this
      ensures polling
      ensures (Snapshot(state, lastStatus, error), events) ==
              Fetched(enabled, chatId, response, now,
                      Snapshot(BatchState(|videos|, 0, 0, None, 0, Processing, None, Some(now), None, videos),
                               old(lastStatus), old(error)))
    {
      state := BatchState(|videos|, 0, 0, None, 0, Processing, None, Some(now), None, videos);
      events := StartPolling(response, now);
    }
  }

  /** Fetching the same report twice: the second fetch changes nothing and raises nothing. */
  method FetchSameTwice(m: BatchMonitor, response: Response, now: int, later: int)
      returns (first: seq<Event>, second: seq<Event>)
    requires response.Received?
    modifies m
    ensures second == []
    ensures m.enabled && m.chatId != "" && response.status.success ==> m.lastStatus == Some(response.status)
    ensures m.state == old(m.state) || first != [] || (m.enabled && m.chatId != "" && response.status.success)
  {
    first := m.FetchStatus(response, now);
    second := m.FetchStatus(response, later);
  }
}
