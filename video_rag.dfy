// The desktop VideoRAG orchestrator: the settings construction insists on,
// the skip-if-already-indexed rule and the order of progress events of
// `insert_video`, the chunk filtering of `ainsert`, and the mode dispatch
// of `aquery`.  Splitting, speech recognition, captioning, feature
// encoding, chunking and entity extraction are oracles.

module VideoRag {
  import opened Common
  import VideoSplit
  import DesktopCaption

  /** The merged information of one video's segments, keyed by segment index. */
  type Segments = map<string, DesktopCaption.SegmentRecord>

  /** The knowledge graph `ainsert` replaces, kept abstract. */
  type Graph = string

  // ------------------------------------------------------------ construction

  /** The six settings `__post_init__` asserts are present. */
  datatype Credentials = Credentials(
    aliDashscopeApiKey: Option<string>,
    aliDashscopeBaseUrl: Option<string>,
    captionModel: Option<string>,
    asrModel: Option<string>,
    openaiApiKey: Option<string>,
    openaiBaseUrl: Option<string>)

  /** The settings in the order they are asserted, each with its field name. */
  function Required(c: Credentials): seq<(Option<string>, string)>
  {
    [(c.aliDashscopeApiKey, "ali_dashscope_api_key"), (c.aliDashscopeBaseUrl, "ali_dashscope_base_url"),
     (c.captionModel, "caption_model"), (c.asrModel, "asr_model"),
     (c.openaiApiKey, "openai_api_key"), (c.openaiBaseUrl, "openai_base_url")]
  }

  /** The name of the first absent setting, if any. */
  function FirstMissing(fields: seq<(Option<string>, string)>): (r: Option<string>)
    ensures r.None? <==> forall i :: 0 <= i < |fields| ==> fields[i].0.Some?
    ensures r.Some? ==> exists i :: 0 <= i < |fields| && fields[i].0.None? && fields[i].1 == r.value &&
                                   forall j :: 0 <= j < i ==> fields[j].0.Some?
  {
    if |fields| == 0 then None
    else if fields[0].0.None? then Some(fields[0].1)
    else
      var rest := FirstMissing(fields[1..]);
      if rest.Some? then
        ghost var i :| 0 <= i < |fields| - 1 && fields[1..][i].0.None? && fields[1..][i].1 == rest.value &&
                       forall j :: 0 <= j < i ==> fields[1..][j].0.Some?;
        assert fields[i + 1].0.None? && forall j :: 0 <= j < i + 1 ==> fields[j].0.Some?;
        rest
      else rest
  }

  /**
   * `__post_init__`'s assertions: construction succeeds exactly when all
   * six settings are present, and otherwise fails with the AssertionError
   * of the first absent one.
   */
  function CheckCredentials(c: Credentials): (r: Result<(), PyError>)
    ensures r.Ok? <==> c.aliDashscopeApiKey.Some? && c.aliDashscopeBaseUrl.Some? && c.captionModel.Some? &&
                       c.asrModel.Some? && c.openaiApiKey.Some? && c.openaiBaseUrl.Some?
    ensures r.Err? ==> exists i :: 0 <= i < 6 && Required(c)[i].0.None? &&
                                   r.error == AssertionError(Required(c)[i].1 + " is required") &&
                                   forall j :: 0 <= j < i ==> Required(c)[j].0.Some?
  {
    var fields := Required(c);
    var missing := FirstMissing(fields);
    assert fields[0].0 == c.aliDashscopeApiKey && fields[1].0 == c.aliDashscopeBaseUrl && fields[2].0 == c.captionModel;
    assert fields[3].0 == c.asrModel && fields[4].0 == c.openaiApiKey && fields[5].0 == c.openaiBaseUrl;
    if missing.None? then Ok(()) else Err(AssertionError(missing.value + " is required"))
  }

  // ------------------------------------------------------------ insert_video

  /** The stages of one video, in the order their progress events are sent. */
  datatype Stage = Splitting | Audio | Visual | Encoding | Saving

  /** The progress event announcing a stage. */
  function StageEvent(s: Stage): string
  {
    match s
    case Splitting => "Video Splitting"
    case Audio => "Audio Processing"
    case Visual => "Visual Analyzing"
    case Encoding => "Feature Encoding"
    case Saving => "Saving Video Information"
  }

  /** How many of a video's events have been sent once its stage `s` has started. */
  function Reached(s: Stage): nat
  {
    match s
    case Splitting => 1
    case Audio => 2
    case Visual => 3
    case Encoding => 4
    case Saving => 5
  }

  const VideoEvents: seq<string> :=
    [StageEvent(Splitting), StageEvent(Audio), StageEvent(Visual), StageEvent(Encoding), StageEvent(Saving)]

  /** One of the five per-video events. */
  predicate IsVideoEvent(e: string)
  {
    exists s: Stage :: e == StageEvent(s)
  }

  const GraphEvent: string := "Creating Knowledge Graph"
  const CompletedEvent: string := "Completed"

  /** The event the worker turns into an indexed video; this path never sends it. */
  const OneVideoCompletedEvent: string := "One Video Completed"

  /** The stage a video's processing raised in, and what it raised. */
  datatype Failure = Failure(stage: Stage, error: PyError)

  /** What processing one video yields: its merged segments, unless a stage raised first. */
  datatype VideoOutcome = VideoOutcome(segments: Segments, failure: Option<Failure>)

  /** The segments are upserted during visual analysis, so a later failure leaves them stored. */
  predicate SegmentsStored(o: VideoOutcome)
  {
    o.failure.None? || o.failure.value.stage.Encoding? || o.failure.value.stage.Saving?
  }

  /** The events sent while processing one video. */
  function EventsOf(o: VideoOutcome): (r: seq<string>)
    ensures forall e :: e in r ==> IsVideoEvent(e)
  {
    assert forall i :: 0 <= i < 5 ==> VideoEvents[i] == StageEvent([Splitting, Audio, Visual, Encoding, Saving][i]);
    if o.failure.None? then VideoEvents else VideoEvents[..Reached(o.failure.value.stage)]
  }

  /** The state `insert_video` works on, the events it has sent, and the error that stopped it. */
  datatype Progress = Progress(segments: map<string, Segments>, paths: map<string, string>,
                               events: seq<string>, error: Option<PyError>)

  /**
   * One turn of the loop of `insert_video`: nothing after an error; a
   * video whose name is already stored is skipped; otherwise its path is
   * recorded first, its events are sent (when there is a callback), its
   * segments are stored once visual analysis got that far, and a failing
   * stage stops the loop with its error.
   */
  function Step(p: Progress, nameOf: string -> string, path: string, o: VideoOutcome, callback: bool): (r: Progress)
    ensures p.error.Some? || nameOf(path) in p.segments ==> r == p
    ensures forall n :: n in p.segments ==> n in r.segments && r.segments[n] == p.segments[n]
    ensures forall n :: n in r.segments ==> n in p.segments || n == nameOf(path)
    ensures p.error.None? && nameOf(path) !in p.segments ==>
              r.paths == p.paths[nameOf(path) := path] &&
              (nameOf(path) in r.segments <==> SegmentsStored(o)) &&
              r.error == (if o.failure.Some? then Some(o.failure.value.error) else None)
  {
    var name := nameOf(path);
    if p.error.Some? || name in p.segments then p
    else
      Progress(if SegmentsStored(o) then p.segments[name := o.segments] else p.segments,
               p.paths[name := path],
               p.events + (if callback then EventsOf(o) else []),
               if o.failure.Some? then Some(o.failure.value.error) else None)
  }

  /** The loop of `insert_video` over the videos of the list, naming each by `nameOf` (`VideoName` there). */
  function Run(p: Progress, nameOf: string -> string, paths: seq<string>, process: string -> VideoOutcome, callback: bool): Progress
    decreases |paths|
  {
    if |paths| == 0 then p
    else
      var last := paths[|paths| - 1];
      Step(Run(p, nameOf, paths[..|paths| - 1], process, callback), nameOf, last, process(last), callback)
  }

  /** Once a video has raised, the rest of the list is not looked at. */
  lemma {:induction false} RunStops(p: Progress, nameOf: string -> string, paths: seq<string>, i: nat, process: string -> VideoOutcome, callback: bool)
    requires i <= |paths|
    requires Run(p, nameOf, paths[..i], process, callback).error.Some?
    ensures Run(p, nameOf, paths, process, callback) == Run(p, nameOf, paths[..i], process, callback)
    decreases |paths|
  {
    if i < |paths| {
      var front := paths[..|paths| - 1];
      assert front[..i] == paths[..i];
      RunStops(p, nameOf, front, i, process, callback);
    } else {
      assert paths[..i] == paths;
    }
  }

  /** A video already indexed is never indexed again, and nothing stored is dropped or changed. */
  lemma {:induction false} RunKeepsStored(p: Progress, nameOf: string -> string, paths: seq<string>, process: string -> VideoOutcome, callback: bool)
    ensures forall n :: n in p.segments ==> n in Run(p, nameOf, paths, process, callback).segments &&
                                            Run(p, nameOf, paths, process, callback).segments[n] == p.segments[n]
    decreases |paths|
  {
    if |paths| > 0 {
      RunKeepsStored(p, nameOf, paths[..|paths| - 1], process, callback);
    }
  }

  /** Every event sent was one of the five per-video events. */
  lemma {:induction false} RunEvents(p: Progress, nameOf: string -> string, paths: seq<string>, process: string -> VideoOutcome, callback: bool)
    ensures forall e :: e in Run(p, nameOf, paths, process, callback).events ==> e in p.events || IsVideoEvent(e)
    decreases |paths|
  {
    if |paths| > 0 {
      RunEvents(p, nameOf, paths[..|paths| - 1], process, callback);
    }
  }

  /** Without a callback no event is sent. */
  lemma {:induction false} RunNoEvents(p: Progress, nameOf: string -> string, paths: seq<string>, process: string -> VideoOutcome)
    ensures Run(p, nameOf, paths, process, false).events == p.events
    decreases |paths|
  {
    if |paths| > 0 {
      RunNoEvents(p, nameOf, paths[..|paths| - 1], process);
    }
  }

  /** Neither "Completed" nor "One Video Completed" is a per-video event. */
  lemma NotVideoEvents()
    ensures !IsVideoEvent(CompletedEvent) && !IsVideoEvent(OneVideoCompletedEvent) && !IsVideoEvent(GraphEvent)
  {
    forall s: Stage
      ensures StageEvent(s) != CompletedEvent && StageEvent(s) != OneVideoCompletedEvent && StageEvent(s) != GraphEvent
    {
      assert StageEvent(s)[0] != 'C' && StageEvent(s)[0] != 'O';
    }
  }

  /**
   * The events `insert_video` sends: those of the video loop, then, when no
   * video raised and a callback is given, "Creating Knowledge Graph" and,
   * when building the graph succeeded, "Completed".
   */
  function InsertEvents(run: Progress, callback: bool, ok: bool): seq<string>
  {
    if run.error.Some? || !callback then run.events
    else run.events + [GraphEvent] + (if ok then [CompletedEvent] else [])
  }

  /**
   * From an empty start, "Completed" is sent exactly when the insertion
   * succeeds with a callback, and then last, right after "Creating Knowledge
   * Graph"; "One Video Completed" is never sent, and nothing is sent without
   * a callback.
   */
  lemma InsertEventsShape(p: Progress, nameOf: string -> string, paths: seq<string>, process: string -> VideoOutcome,
                          callback: bool, ok: bool)
    requires p.events == [] && p.error.None?
    requires ok ==> Run(p, nameOf, paths, process, callback).error.None?
    ensures var ev := InsertEvents(Run(p, nameOf, paths, process, callback), callback, ok);
            (callback ==> (ok <==> CompletedEvent in ev)) &&
            (ok && callback ==> |ev| >= 2 && ev[|ev| - 2..] == [GraphEvent, CompletedEvent]) &&
            OneVideoCompletedEvent !in ev &&
            (!callback ==> ev == [])
  {
    var run := Run(p, nameOf, paths, process, callback);
    RunEvents(p, nameOf, paths, process, callback);
    NotVideoEvents();
    if !callback {
      RunNoEvents(p, nameOf, paths, process);
    }
  }

  /** A turn without error follows one without error and leaves its video indexed. */
  lemma StepIndexes(q: Progress, nameOf: string -> string, path: string, o: VideoOutcome, callback: bool)
    requires Step(q, nameOf, path, o, callback).error.None?
    ensures q.error.None?
    ensures nameOf(path) in Step(q, nameOf, path, o, callback).segments
    ensures q.segments.Keys <= Step(q, nameOf, path, o, callback).segments.Keys
  {
  }

  /** Without an error, every video of the list ends up indexed under its name. */
  lemma {:induction false} RunIndexesAll(p: Progress, nameOf: string -> string, paths: seq<string>, process: string -> VideoOutcome, callback: bool)
    requires Run(p, nameOf, paths, process, callback).error.None?
    ensures forall k :: 0 <= k < |paths| ==> nameOf(paths[k]) in Run(p, nameOf, paths, process, callback).segments
    decreases |paths|
  {
    if |paths| > 0 {
      var front := paths[..|paths| - 1];
      var last := paths[|paths| - 1];
      var q := Run(p, nameOf, front, process, callback);
      StepIndexes(q, nameOf, last, process(last), callback);
      RunIndexesAll(p, nameOf, front, process, callback);
      var keys := Run(p, nameOf, paths, process, callback).segments.Keys;
      assert q.segments.Keys <= keys;
      forall k | 0 <= k < |paths|
        ensures nameOf(paths[k]) in keys
      {
        if k < |front| {
          assert paths[k] == front[k];
          assert nameOf(front[k]) in q.segments;
        }
      }
    }
  }

  /** A list whose videos are all indexed already changes nothing and sends no per-video event. */
  lemma {:induction false} RunAllSkipped(p: Progress, nameOf: string -> string, paths: seq<string>, process: string -> VideoOutcome, callback: bool)
    requires forall k :: 0 <= k < |paths| ==> nameOf(paths[k]) in p.segments
    ensures Run(p, nameOf, paths, process, callback) == p
    decreases |paths|
  {
    if |paths| > 0 {
      RunAllSkipped(p, nameOf, paths[..|paths| - 1], process, callback);
    }
  }

  /**
   * Inserting the same list again after a run without error indexes
   * nothing: every name is found and skipped.
   */
  lemma InsertAgainSkips(p: Progress, nameOf: string -> string, paths: seq<string>, process: string -> VideoOutcome, callback: bool)
    requires Run(p, nameOf, paths, process, callback).error.None?
    ensures var q := Run(p, nameOf, paths, process, callback);
            Run(Progress(q.segments, q.paths, [], None), nameOf, paths, process, callback) ==
            Progress(q.segments, q.paths, [], None)
  {
    var q := Run(p, nameOf, paths, process, callback);
    RunIndexesAll(p, nameOf, paths, process, callback);
    RunAllSkipped(Progress(q.segments, q.paths, [], None), nameOf, paths, process, callback);
  }

  /** The chunks `filter_keys` lets through: those not yet stored. */
  function NewChunks(chunks: map<string, string>, stored: map<string, string>): (r: map<string, string>)
    ensures forall k :: k in r <==> k in chunks && k !in stored
    ensures forall k :: k in r ==> r[k] == chunks[k]
  {
    map k | k in chunks && k !in stored :: chunks[k]
  }

  /** Once the new chunks are stored, the same chunks bring nothing new. */
  lemma NewChunksIdempotent(chunks: map<string, string>, stored: map<string, string>)
    ensures NewChunks(chunks, stored + NewChunks(chunks, stored)) == map[]
  {
    var again := NewChunks(chunks, stored + NewChunks(chunks, stored));
    assert forall k :: k !in again;
  }

  /** The chunks one `ainsert` call would add. */
  function Inserted(newSegments: map<string, Segments>, getChunks: map<string, Segments> -> map<string, string>,
                    stored: map<string, string>): map<string, string>
  {
    NewChunks(getChunks(newSegments), stored)
  }

  /** `ainsert` gets as far as replacing the graph and storing the chunks. */
  predicate Committed(newSegments: map<string, Segments>, getChunks: map<string, Segments> -> map<string, string>,
                      extract: map<string, string> -> Result<Option<Graph>, PyError>, stored: map<string, string>)
  {
    var inserting := Inserted(newSegments, getChunks, stored);
    inserting != map[] && extract(inserting).Ok? && extract(inserting).value.Some?
  }

  /**
   * What `ainsert` returns: the extractor's error when there were new
   * chunks and extracting from them raised, success otherwise.
   */
  function InsertResult(newSegments: map<string, Segments>, getChunks: map<string, Segments> -> map<string, string>,
                        extract: map<string, string> -> Result<Option<Graph>, PyError>, stored: map<string, string>)
    : (r: Result<(), PyError>)
    ensures r.Err? <==> Inserted(newSegments, getChunks, stored) != map[] && extract(Inserted(newSegments, getChunks, stored)).Err?
    ensures r.Err? ==> r.error == extract(Inserted(newSegments, getChunks, stored)).error
    ensures Committed(newSegments, getChunks, extract, stored) ==> r.Ok?
  {
    var inserting := Inserted(newSegments, getChunks, stored);
    if inserting != map[] && extract(inserting).Err? then Err(extract(inserting).error) else Ok(())
  }

  // ------------------------------------------------------------ the instance

  /** The storages and counters of a `VideoRAG` instance the modelled code touches. */
  class VideoRAG {
    var videoSegments: map<string, Segments>
    var videoPaths: map<string, string>
    var textChunks: map<string, string>
    var naiveChunks: map<string, string>
    var graph: Graph
    /** How often `_insert_done` and `_query_done` ran. */
    var insertDone: nat
    var queryDone: nat
    const enableNaiveRag: bool

    constructor(c: Credentials, enableNaiveRag: bool)
      requires CheckCredentials(c).Ok?
      ensures this.enableNaiveRag == enableNaiveRag
      ensures videoSegments == map[] && videoPaths == map[] && textChunks == map[] && naiveChunks == map[]
      ensures insertDone == 0 && queryDone == 0
    {
      this.enableNaiveRag := enableNaiveRag;
      videoSegments, videoPaths, textChunks, naiveChunks := map[], map[], map[], map[];
      graph := "";
      insertDone, queryDone := 0, 0;
    }

    /**
     * `ainsert`: chunk the segments, keep the chunks not stored yet, and
     * return early when none remain; otherwise hand them to the naive-RAG
     * store when enabled, extract entities, and return early when no graph
     * comes back; otherwise replace the graph and store the chunks.
     * `_insert_done` runs whatever happens, an error included.
     */
    method Ainsert(newSegments: map<string, Segments>, getChunks: map<string, Segments> -> map<string, string>,
                   extract: map<string, string> -> Result<Option<Graph>, PyError>)
      returns (r: Result<(), PyError>)
      modifies this
      ensures insertDone == old(insertDone) + 1 && queryDone == old(queryDone)
      ensures videoSegments == old(videoSegments) && videoPaths == old(videoPaths)
      ensures Inserted(newSegments, getChunks, old(textChunks)) == map[] ==> r.Ok? && naiveChunks == old(naiveChunks)
      ensures naiveChunks == (if enableNaiveRag then old(naiveChunks) + Inserted(newSegments, getChunks, old(textChunks))
                              else old(naiveChunks))
      ensures Inserted(newSegments, getChunks, old(textChunks)) != map[] ==>
                r == (if extract(Inserted(newSegments, getChunks, old(textChunks))).Err?
                      then Err(extract(Inserted(newSegments, getChunks, old(textChunks))).error) else Ok(()))
      ensures Committed(newSegments, getChunks, extract, old(textChunks)) ==>
                graph == extract(Inserted(newSegments, getChunks, old(textChunks))).value.value &&
                textChunks == old(textChunks) + Inserted(newSegments, getChunks, old(textChunks))
      ensures !Committed(newSegments, getChunks, extract, old(textChunks)) ==>
                graph == old(graph) && textChunks == old(textChunks)
      ensures r == InsertResult(newSegments, getChunks, extract, old(textChunks))
    {
      var inserting := NewChunks(getChunks(newSegments), textChunks);
      assert inserting == Inserted(newSegments, getChunks, textChunks);
      insertDone := insertDone + 1;
      if inserting == map[] {
        return Ok(());
      }
      if enableNaiveRag {
        naiveChunks := naiveChunks + inserting;
      }
      var extracted := extract(inserting);
      if extracted.Err? {
        return Err(extracted.error);
      }
      if extracted.value.Some? {
        graph := extracted.value.value;
        textChunks := textChunks + inserting;
      }
      return Ok(());
    }

    /**
     * The loop of `insert_video`: each video in turn as `Run` describes,
     * stopping at the first that raises.
     */
    method IndexVideos(paths: seq<string>, callback: bool, process: string -> VideoOutcome)
      returns (error: Option<PyError>, events: seq<string>)
      modifies this`videoSegments, this`videoPaths
      ensures Progress(videoSegments, videoPaths, events, error) ==
              Run(Progress(old(videoSegments), old(videoPaths), [], None), VideoSplit.VideoName, paths, process, callback)
    {
      ghost var start := Progress(videoSegments, videoPaths, [], None);
      events := [];
      var i := 0;
      while i < |paths|
        invariant 0 <= i <= |paths|
        invariant Run(start, VideoSplit.VideoName, paths[..i], process, callback) == Progress(videoSegments, videoPaths, events, None)
      {
        assert paths[..i + 1][..i] == paths[..i];
        var path := paths[i];
        var name := VideoSplit.VideoName(path);
        if name !in videoSegments {
          var o := process(path);
          videoPaths := videoPaths[name := path];
          if callback {
            events := events + EventsOf(o);
          } else {
            assert events + [] == events;
          }
          if SegmentsStored(o) {
            videoSegments := videoSegments[name := o.segments];
          }
          if o.failure.Some? {
            RunStops(start, VideoSplit.VideoName, paths, i + 1, process, callback);
            return Some(o.failure.value.error), events;
          }
        }
        i := i + 1;
      }
      assert paths[..i] == paths;
      error := None;
    }

    /**
     * `insert_video`: no list is an empty list; the videos are processed
     * in order as `Run` describes, then "Creating Knowledge Graph" is sent,
     * the graph is built from all stored segments, and "Completed" is sent
     * once, last.  A video that raises stops everything after it.
     */
    method InsertVideo(pathList: Option<seq<string>>, callback: bool, process: string -> VideoOutcome,
                       getChunks: map<string, Segments> -> map<string, string>,
                       extract: map<string, string> -> Result<Option<Graph>, PyError>)
      returns (r: Result<(), PyError>, events: seq<string>)
      modifies this
      ensures var paths := if pathList.Some? then pathList.value else [];
              var run := Run(Progress(old(videoSegments), old(videoPaths), [], None), VideoSplit.VideoName, paths, process, callback);
              videoSegments == run.segments && videoPaths == run.paths &&
              (run.error.Some? ==> r == Err(run.error.value)) &&
              (r.Ok? ==> run.error.None?) &&
              events == InsertEvents(run, callback, r.Ok?)
      ensures var paths := if pathList.Some? then pathList.value else [];
              var run := Run(Progress(old(videoSegments), old(videoPaths), [], None), VideoSplit.VideoName, paths, process, callback);
              run.error.Some? ==>
                textChunks == old(textChunks) && naiveChunks == old(naiveChunks) && graph == old(graph) && insertDone == old(insertDone)
      ensures var paths := if pathList.Some? then pathList.value else [];
              var run := Run(Progress(old(videoSegments), old(videoPaths), [], None), VideoSplit.VideoName, paths, process, callback);
              var inserting := Inserted(run.segments, getChunks, old(textChunks));
              run.error.None? ==>
                r == InsertResult(run.segments, getChunks, extract, old(textChunks)) && insertDone == old(insertDone) + 1 &&
                naiveChunks == (if enableNaiveRag then old(naiveChunks) + inserting else old(naiveChunks)) &&
                (Committed(run.segments, getChunks, extract, old(textChunks)) ==>
                   graph == extract(inserting).value.value && textChunks == old(textChunks) + inserting) &&
                (!Committed(run.segments, getChunks, extract, old(textChunks)) ==>
                   graph == old(graph) && textChunks == old(textChunks))
      ensures queryDone == old(queryDone)
    {
      var paths := if pathList.Some? then pathList.value else [];
      ghost var run := Run(Progress(videoSegments, videoPaths, [], None), VideoSplit.VideoName, paths, process, callback);
      var error;
      error, events := IndexVideos(paths, callback, process);
      assert run == Progress(videoSegments, videoPaths, events, error);
      if error.Some? {
        return Err(error.value), events;
      }
      if callback {
        events := events + [GraphEvent];
      }
      r := Ainsert(videoSegments, getChunks, extract);
      if r.Ok? && callback {
        events := events + [CompletedEvent];
      }
      assert events == InsertEvents(run, callback, r.Ok?);
    }

    /**
     * `aquery`: the two known modes answer, any other raises ValueError;
     * `_query_done` runs only after an answer.
     */
    method Aquery(mode: string, videorag: Result<string, PyError>, multipleChoice: Result<string, PyError>)
      returns (r: Result<string, PyError>)
      modifies this
      ensures mode == "videorag" ==> r == videorag
      ensures mode == "videorag_multiple_choice" ==> r == multipleChoice
      ensures mode != "videorag" && mode != "videorag_multiple_choice" ==> r == Err(ValueError("Unknown mode " + mode))
      ensures queryDone == old(queryDone) + (if r.Ok? then 1 else 0)
      ensures insertDone == old(insertDone) && videoSegments == old(videoSegments) && textChunks == old(textChunks)
    {
      if mode == "videorag" {
        r := videorag;
      } else if mode == "videorag_multiple_choice" {
        r := multipleChoice;
      } else {
        return Err(ValueError("Unknown mode " + mode));
      }
      if r.Ok? {
        queryDone := queryDone + 1;
      }
    }
  }
}
