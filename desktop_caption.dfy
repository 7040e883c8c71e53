// Captioning in the desktop build of the pipeline: the cleanup applied to
// every caption the model returns, the dictionary of captions keyed by
// segment index, the copy into the shared result dictionary, the direct
// (KeyError-raising) merge of captions and transcripts, and the
// re-captioning of retrieved segments with its fallback text.

module DesktopCaption {
  import opened Common
  import CaptionMerge
  import VideoSplit

  /** The end-of-text marker the caption model may leave in its output. */
  const EndOfText: string := "<|endoftext|>"

  /** What one call of the caption model yields: some text, nothing, or an exception. */
  datatype Reply = Replied(text: string) | NoReply | Raised(message: string)

  /**
   * `_process_single_caption`: newlines and then end-of-text markers are
   * removed from a non-empty reply; an empty or missing reply and a raised
   * exception both give the empty caption.
   */
  function CleanCaption(reply: Reply): (r: string)
    ensures '\n' !in r
    ensures reply.Replied? ==> forall x :: multiset(r)[x] <= multiset(reply.text)[x]
    ensures !reply.Replied? ==> r == ""
    ensures reply.Replied? && '\n' !in reply.text && !Contains(reply.text, EndOfText) ==> r == reply.text
  {
    if reply.Replied? && reply.text != "" then
      var flat := RemoveChar(reply.text, '\n');
      var r := RemoveAll(flat, EndOfText);
      assert multiset(r)['\n'] <= multiset(flat)['\n'] == 0;
      r
    else ""
  }

  /** The model's output is kept verbatim when it is already a single clean line. */
  lemma CleanCaptionKeepsCleanText(text: string)
    requires '\n' !in text && '<' !in text
    ensures CleanCaption(Replied(text)) == text
  {
    NotContainsChar(text, EndOfText, '<');
  }

  // ---------------------------------------------------------- captioning

  /** The frame times and the transcript of the segment can both be looked up. */
  predicate Extractable(index: string, frameTimes: map<string, seq<real>>, transcripts: map<string, string>)
  {
    index in frameTimes && index in transcripts
  }

  /** The captions `segment_caption_async` returns: one cleaned caption per segment index. */
  ghost function Captions(indexToName: map<string, string>, captioner: string -> Reply): map<string, string>
  {
    map k | k in indexToName :: CleanCaption(captioner(k))
  }

  /**
   * `segment_caption_async`: the frames and the transcript of every segment
   * are gathered first (the video cannot be read: an I/O error; a segment
   * without frame times or transcript: the KeyError of the first such
   * index), then each segment is captioned, and the captions are keyed by
   * exactly the indices of `segment_index2name`.  `captioner(k)` is the
   * model's reply for segment `k`.
   */
  method SegmentCaptionAsync(order: seq<string>, indexToName: map<string, string>,
                             frameTimes: map<string, seq<real>>, transcripts: map<string, string>,
                             unreadable: bool, captioner: string -> Reply)
    returns (r: Result<map<string, string>, PyError>)
    requires KeyOrder(order, indexToName)
    ensures r.Ok? <==> !unreadable && forall k :: k in indexToName ==> Extractable(k, frameTimes, transcripts)
    ensures r.Ok? ==> r.value == Captions(indexToName, captioner)
    ensures r.Err? && unreadable ==> r.error.IOError?
    ensures r.Err? && !unreadable ==>
              exists i :: 0 <= i < |order| && r.error == KeyError(order[i]) &&
                !Extractable(order[i], frameTimes, transcripts) &&
                forall j :: 0 <= j < i ==> Extractable(order[j], frameTimes, transcripts)
  {
    if unreadable {
      return Err(IOError("cannot read video"));
    }
    var missing := FirstNotExtractable(order, frameTimes, transcripts);
    if missing < |order| {
      return Err(KeyError(order[missing]));
    }
    var captions := CaptionEach(order, captioner);
    r := Ok(captions);
  }

  /** The gathering loop: the position of the first segment whose frame times or transcript are missing, or |order|. */
  method FirstNotExtractable(order: seq<string>, frameTimes: map<string, seq<real>>, transcripts: map<string, string>)
    returns (i: nat)
    ensures i <= |order|
    ensures forall j :: 0 <= j < i ==> Extractable(order[j], frameTimes, transcripts)
    ensures i < |order| ==> !Extractable(order[i], frameTimes, transcripts)
  {
    i := 0;
    while i < |order|
      invariant 0 <= i <= |order|
      invariant forall j :: 0 <= j < i ==> Extractable(order[j], frameTimes, transcripts)
    {
      if !Extractable(order[i], frameTimes, transcripts) {
        return;
      }
      i := i + 1;
    }
  }

  /** The captioning loop: every segment index keyed to its cleaned caption. */
  method CaptionEach(order: seq<string>, captioner: string -> Reply) returns (captions: map<string, string>)
    ensures forall k :: k in captions <==> k in order
    ensures forall k :: k in captions ==> captions[k] == CleanCaption(captioner(k))
  {
    captions := map[];
    var i := 0;
    while i < |order|
      invariant 0 <= i <= |order|
      invariant forall k :: k in captions <==> k in order[..i]
      invariant forall k :: k in captions ==> captions[k] == CleanCaption(captioner(k))
    {
      assert order[..i + 1] == order[..i] + [order[i]];
      captions := captions[order[i] := CleanCaption(captioner(order[i]))];
      i := i + 1;
    }
    assert order[..i] == order;
  }

  /** The dictionary, shared between worker processes, that collects captions. */
  class SharedCaptions {
    var captions: map<string, string>

    constructor()
      ensures captions == map[]
    {
      captions := map[];
    }

    /**
     * `segment_caption`: runs the captioning and copies every returned
     * caption into the shared dictionary, overwriting an earlier caption of
     * the same index; any failure becomes a RuntimeError and copies nothing.
     */
    method SegmentCaption(order: seq<string>, indexToName: map<string, string>,
                          frameTimes: map<string, seq<real>>, transcripts: map<string, string>,
                          unreadable: bool, captioner: string -> Reply)
      returns (r: Result<(), PyError>)
      requires KeyOrder(order, indexToName)
      modifies this
      ensures r.Ok? <==> !unreadable && forall k :: k in indexToName ==> Extractable(k, frameTimes, transcripts)
      ensures r.Ok? ==> captions == old(captions) + Captions(indexToName, captioner)
      ensures r.Err? ==> r.error.RuntimeError? && captions == old(captions)
    {
      var result := SegmentCaptionAsync(order, indexToName, frameTimes, transcripts, unreadable, captioner);
      if result.Err? {
        return Err(RuntimeError(""));
      }
      var items := result.value;
      var keys := order;
      ghost var start := captions;
      var i := 0;
      while i < |keys|
        invariant 0 <= i <= |keys| && keys == order
        invariant captions == start + Restrict(items, keys[..i])
      {
        RestrictStep(start, items, keys[..i], keys[i]);
        assert keys[..i + 1] == keys[..i] + [keys[i]];
        captions := captions[keys[i] := items[keys[i]]];
        i := i + 1;
      }
      assert keys[..i] == keys;
      RestrictAll(items, keys);
      r := Ok(());
    }
  }

  // ------------------------------------------------------------- merging

  /** One merged record: the content, the time, the transcript and the frame times of a segment. */
  datatype SegmentRecord = SegmentRecord(content: string, time: string, transcript: string, frameTimes: seq<real>)

  /** Caption, transcript and frame times of the segment can all be looked up. */
  predicate Complete(index: string, frameTimes: map<string, seq<real>>, transcripts: map<string, string>,
                     captions: map<string, string>)
  {
    index in captions && index in transcripts && index in frameTimes
  }

  /** The record `merge_segment_information` builds for one complete segment. */
  function RecordOf(index: string, name: string, frameTimes: map<string, seq<real>>,
                    transcripts: map<string, string>, captions: map<string, string>): SegmentRecord
    requires Complete(index, frameTimes, transcripts, captions)
  {
    SegmentRecord(CaptionMerge.Content(captions[index], transcripts[index]), CaptionMerge.TimeOf(name),
                  transcripts[index], frameTimes[index])
  }

  /**
   * `merge_segment_information` of the desktop build: one record per
   * segment index, with the caption, the transcript and the frame times
   * looked up directly, so the first index missing from any of them
   * raises its KeyError and nothing is returned.
   */
  method MergeSegmentInformation(order: seq<string>, indexToName: map<string, string>,
                                 frameTimes: map<string, seq<real>>, transcripts: map<string, string>,
                                 captions: map<string, string>)
    returns (r: Result<map<string, SegmentRecord>, PyError>)
    requires KeyOrder(order, indexToName)
    ensures r.Ok? <==> forall k :: k in indexToName ==> Complete(k, frameTimes, transcripts, captions)
    ensures r.Ok? ==> r.value.Keys == indexToName.Keys
    ensures r.Ok? ==> forall k :: k in r.value ==>
              (Complete(k, frameTimes, transcripts, captions) &&
               r.value[k] == RecordOf(k, indexToName[k], frameTimes, transcripts, captions))
    ensures r.Err? ==>
              exists i :: 0 <= i < |order| && r.error == KeyError(order[i]) &&
                !Complete(order[i], frameTimes, transcripts, captions) &&
                forall j :: 0 <= j < i ==> Complete(order[j], frameTimes, transcripts, captions)
  {
    var segments: map<string, SegmentRecord> := map[];
    var i := 0;
    while i < |order|
      invariant 0 <= i <= |order|
      invariant forall j :: 0 <= j < i ==> Complete(order[j], frameTimes, transcripts, captions)
      invariant segments.Keys == set j | 0 <= j < i :: order[j]
      invariant forall k :: k in segments ==>
                  (k in indexToName && Complete(k, frameTimes, transcripts, captions) &&
                   segments[k] == RecordOf(k, indexToName[k], frameTimes, transcripts, captions))
    {
      var index := order[i];
      if !Complete(index, frameTimes, transcripts, captions) {
        return Err(KeyError(index));
      }
      segments := segments[index := RecordOf(index, indexToName[index], frameTimes, transcripts, captions)];
      i := i + 1;
    }
    assert segments.Keys == indexToName.Keys;
    r := Ok(segments);
  }

  /**
   * A record built from a cleaned caption and a splitter-named segment
   * gives back what went into it: the time is the segment's "start-end",
   * and the content determines the caption and the transcript.
   */
  lemma RecordReadsBack(timestamp: string, position: nat, seg: (int, int), reply: Reply,
                        transcript: string, caption': string, transcript': string)
    requires '-' !in timestamp && seg.0 >= 0 && seg.1 >= 0 && '\n' !in caption'
    requires CaptionMerge.Content(CleanCaption(reply), transcript) == CaptionMerge.Content(caption', transcript')
    ensures CaptionMerge.TimeOf(VideoSplit.SegmentName(timestamp, position, seg)) ==
            IntToString(seg.0) + "-" + IntToString(seg.1)
    ensures caption' == CleanCaption(reply) && transcript' == transcript
  {
    CaptionMerge.TimeOfSegmentName(timestamp, position, seg);
    CaptionMerge.ContentInjective(CleanCaption(reply), transcript, caption', transcript');
  }

  // ------------------------------------------------- retrieved segments

  /** The text used when re-captioning a retrieved segment fails. */
  const FallbackCaption: string := "Error generating caption"

  /**
   * `_process_retrieved_segment_caption` for one id `{video}_{index}`: the
   * transcript lookup happens outside the guarded block, so an unknown
   * video or index raises its KeyError; after it, an unknown video path, a
   * time without two '-' fields or a failing model give the fallback
   * content instead of an exception.
   */
  function RetrievedContent(id: string, videoPaths: map<string, string>,
                            videoSegments: map<string, map<string, CaptionMerge.SegmentData>>,
                            captioner: string -> Reply): (r: Result<string, PyError>)
    ensures var (video, index) := CaptionMerge.ParseSegmentId(id);
            r.Ok? <==> video in videoSegments && index in videoSegments[video]
    ensures var (video, index) := CaptionMerge.ParseSegmentId(id);
            r.Err? ==> r.error == KeyError(if video in videoSegments then index else video)
    ensures var (video, index) := CaptionMerge.ParseSegmentId(id);
            r.Ok? && !Captionable(id, videoPaths, videoSegments, captioner) ==>
              r.value == CaptionMerge.Content(FallbackCaption, videoSegments[video][index].transcript)
    ensures var (video, index) := CaptionMerge.ParseSegmentId(id);
            r.Ok? && Captionable(id, videoPaths, videoSegments, captioner) ==>
              r.value == CaptionMerge.Content(CleanCaption(captioner(id)), videoSegments[video][index].transcript)
  {
    var (video, index) := CaptionMerge.ParseSegmentId(id);
    if video !in videoSegments then Err(KeyError(video))
    else if index !in videoSegments[video] then Err(KeyError(index))
    else
      var transcript := videoSegments[video][index].transcript;
      if Captionable(id, videoPaths, videoSegments, captioner) then
        Ok(CaptionMerge.Content(CleanCaption(captioner(id)), transcript))
      else
        Ok(CaptionMerge.Content(FallbackCaption, transcript))
  }

  /** Every step inside the guarded block succeeds for this id. */
  predicate Captionable(id: string, videoPaths: map<string, string>,
                        videoSegments: map<string, map<string, CaptionMerge.SegmentData>>, captioner: string -> Reply)
  {
    var (video, index) := CaptionMerge.ParseSegmentId(id);
    video in videoPaths && video in videoSegments && index in videoSegments[video] &&
    |Split(videoSegments[video][index].time, '-')| >= 2 && !captioner(id).Raised?
  }

  /**
   * Whatever happens inside the guarded block, the content of a retrieved
   * segment carries its transcript, and it is the fallback exactly when
   * re-captioning failed (a real caption never contains a newline, so the
   * two cannot be confused when the fallback text itself is not returned
   * by the model).
   */
  lemma RetrievedFallbackIff(id: string, videoPaths: map<string, string>,
                             videoSegments: map<string, map<string, CaptionMerge.SegmentData>>,
                             captioner: string -> Reply)
    requires RetrievedContent(id, videoPaths, videoSegments, captioner).Ok?
    requires !captioner(id).Replied? || captioner(id).text != FallbackCaption
    requires captioner(id).Replied? ==> '\n' !in captioner(id).text && '<' !in captioner(id).text
    ensures var (video, index) := CaptionMerge.ParseSegmentId(id);
            RetrievedContent(id, videoPaths, videoSegments, captioner).value ==
              CaptionMerge.Content(FallbackCaption, videoSegments[video][index].transcript)
            <==> !Captionable(id, videoPaths, videoSegments, captioner)
  {
    var (video, index) := CaptionMerge.ParseSegmentId(id);
    var t := videoSegments[video][index].transcript;
    if Captionable(id, videoPaths, videoSegments, captioner) {
      var c := CleanCaption(captioner(id));
      if captioner(id).Replied? {
        CleanCaptionKeepsCleanText(captioner(id).text);
      }
      assert c != FallbackCaption;
      if CaptionMerge.Content(c, t) == CaptionMerge.Content(FallbackCaption, t) {
        CaptionMerge.ContentInjective(c, t, FallbackCaption, t);
      }
    }
  }

  /**
   * `retrieved_segment_caption_async`: the content of every retrieved id,
   * keyed by id; the KeyError of the first id whose transcript cannot be
   * looked up is raised instead.
   */
  method RetrievedSegmentCaption(retrieved: seq<string>, videoPaths: map<string, string>,
                                 videoSegments: map<string, map<string, CaptionMerge.SegmentData>>,
                                 captioner: string -> Reply)
    returns (r: Result<map<string, string>, PyError>)
    ensures r.Ok? <==> forall i :: 0 <= i < |retrieved| ==> RetrievedContent(retrieved[i], videoPaths, videoSegments, captioner).Ok?
    ensures r.Ok? ==> r.value.Keys == set i | 0 <= i < |retrieved| :: retrieved[i]
    ensures r.Ok? ==> forall k :: k in r.value ==>
              RetrievedContent(k, videoPaths, videoSegments, captioner) == Ok(r.value[k])
    ensures r.Err? ==>
              exists i :: 0 <= i < |retrieved| && RetrievedContent(retrieved[i], videoPaths, videoSegments, captioner) == Err(r.error) &&
                forall j :: 0 <= j < i ==> RetrievedContent(retrieved[j], videoPaths, videoSegments, captioner).Ok?
  {
    r := CollectValues(retrieved, id => RetrievedContent(id, videoPaths, videoSegments, captioner));
  }
}
