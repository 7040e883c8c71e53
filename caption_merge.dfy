// Caption bookkeeping of the indexing pipeline: the per-segment records
// `merge_segment_information` builds from captions and transcripts, the
// counters and stored texts of `segment_caption`, and the parsing of the
// `{video}_{index}` ids that `retrieved_segment_caption` receives.

module CaptionMerge {
  import opened Common
  import VideoSplit

  // ------------------------------------------------------------ contents

  /** "Caption:\n{caption}\nTranscript:\n{transcript}\n\n". */
  function Content(caption: string, transcript: string): string
  {
    "Caption:\n" + caption + "\nTranscript:\n" + transcript + "\n\n"
  }

  /** Content is injective: the caption and the transcript can be read back when the caption has no newline. */
  lemma ContentInjective(c1: string, t1: string, c2: string, t2: string)
    requires '\n' !in c1 && '\n' !in c2
    requires Content(c1, t1) == Content(c2, t2)
    ensures c1 == c2 && t1 == t2
  {
    var s1, s2 := Content(c1, t1), Content(c2, t2);
    assert forall k :: 0 <= k < |c1| ==> s1[9 + k] == c1[k];
    assert forall k :: 0 <= k < |c2| ==> s2[9 + k] == c2[k];
    assert s1[9 + |c1|] == '\n' && s2[9 + |c2|] == '\n';
    assert |c1| == |c2|;
    assert c1 == c2;
    assert t1 == s1[|c1| + 22..|s1| - 2];
    assert t2 == s2[|c2| + 22..|s2| - 2];
  }

  /** `d.get(key, "")`. */
  function GetText(d: map<string, string>, key: string): string
  {
    if key in d then d[key] else ""
  }

  /** `'-'.join(name.split('-')[-2:])`: the last two '-'-separated fields. */
  function TimeOf(name: string): string
  {
    var fields := Split(name, '-');
    Join(if |fields| >= 2 then fields[|fields| - 2..] else fields, "-")
  }

  /** The time of a segment named by the splitter is its "start-end". */
  lemma TimeOfSegmentName(timestamp: string, index: nat, seg: (int, int))
    requires '-' !in timestamp && seg.0 >= 0 && seg.1 >= 0
    ensures TimeOf(VideoSplit.SegmentName(timestamp, index, seg)) == IntToString(seg.0) + "-" + IntToString(seg.1)
  {
    VideoSplit.SegmentNameFields(timestamp, index, seg);
    var fields := Split(VideoSplit.SegmentName(timestamp, index, seg), '-');
    assert fields[2..] == [IntToString(seg.0), IntToString(seg.1)];
    assert Join(fields[2..], "-") == IntToString(seg.0) + "-" + Join([IntToString(seg.1)], "-");
  }

  // ------------------------------------------------------------- merging

  /** A merged segment, or the record left when merging it raised. */
  datatype Entry =
    | Merged(content: string, time: string, transcript: string, caption: string)
    | MergeFailed(content: string, transcript: string, caption: string)

  /**
   * The record built for one segment.  Reading its frame times raises
   * KeyError when the segment has no entry in `segment_times_info`, which
   * leaves the failure record.
   */
  function MergeEntry(index: string, name: string, hasTimes: bool, transcript: string, caption: string): (e: Entry)
    ensures e.Merged? <==> hasTimes
    ensures e.transcript == transcript && e.caption == caption
    ensures e.Merged? ==> e.time == TimeOf(name) && e.content == Content(caption, transcript)
  {
    if hasTimes then Merged(Content(caption, transcript), TimeOf(name), transcript, caption)
    else MergeFailed("合并失败: '" + index + "'", transcript, caption)
  }

  /** A segment counts as merged when it merged and its caption or transcript is non-empty. */
  predicate Succeeded(e: Entry)
  {
    e.Merged? && (e.caption != "" || e.transcript != "")
  }

  /** The entry `merge_segment_information` builds for `index`. */
  function EntryOf(index: string, indexToName: map<string, string>, timed: set<string>,
                   transcripts: map<string, string>, captions: map<string, string>): Entry
    requires index in indexToName
  {
    MergeEntry(index, indexToName[index], index in timed, GetText(transcripts, index), GetText(captions, index))
  }

  /**
   * `merge_segment_information`: one entry per key of `segment_index2name`,
   * each built from its caption and transcript (missing ones read as ""),
   * with the successes and failures counted so that they add up to the
   * number of segments.
   */
  method MergeSegmentInformation(order: seq<string>, indexToName: map<string, string>, timed: set<string>,
                                 transcripts: map<string, string>, captions: map<string, string>)
    returns (segments: map<string, Entry>, successful: nat, failed: nat)
    requires KeyOrder(order, indexToName)
    ensures segments == MergedEntries(order, indexToName, timed, transcripts, captions)
    ensures successful == MergeSuccesses(order, indexToName, timed, transcripts, captions)
    ensures successful + failed == |indexToName|
  {
    KeyOrderLength(order, indexToName);
    segments, successful, failed := MergeEach(order, indexToName, timed, transcripts, captions);
  }

  /** The loop of `merge_segment_information` over the given segment indices. */
  method MergeEach(keys: seq<string>, indexToName: map<string, string>, timed: set<string>,
                   transcripts: map<string, string>, captions: map<string, string>)
    returns (segments: map<string, Entry>, successful: nat, failed: nat)
    requires forall i :: 0 <= i < |keys| ==> keys[i] in indexToName
    ensures segments == MergedEntries(keys, indexToName, timed, transcripts, captions)
    ensures successful == MergeSuccesses(keys, indexToName, timed, transcripts, captions)
    ensures successful + failed == |keys|
  {
    segments := map[];
    successful, failed := 0, 0;
    var i := 0;
    while i < |keys|
      invariant 0 <= i <= |keys|
      invariant segments == MergedEntries(keys[..i], indexToName, timed, transcripts, captions)
      invariant successful == MergeSuccesses(keys[..i], indexToName, timed, transcripts, captions)
      invariant successful + failed == i
    {
      var index := keys[i];
      var entry := MergeEntry(index, indexToName[index], index in timed, GetText(transcripts, index), GetText(captions, index));
      assert keys[..i + 1][..i] == keys[..i];
      segments := segments[index := entry];
      if Succeeded(entry) {
        successful := successful + 1;
      } else {
        failed := failed + 1;
      }
      i := i + 1;
    }
    assert keys[..i] == keys;
  }

  /**
   * One entry per key of `segment_index2name`: the merged dict has exactly
   * its keys, each holding the entry built for it.
   */
  lemma MergeOnePerSegment(order: seq<string>, indexToName: map<string, string>, timed: set<string>,
                           transcripts: map<string, string>, captions: map<string, string>)
    requires KeyOrder(order, indexToName)
    ensures MergedEntries(order, indexToName, timed, transcripts, captions).Keys == indexToName.Keys
    ensures forall k :: k in indexToName ==>
              MergedEntries(order, indexToName, timed, transcripts, captions)[k] == EntryOf(k, indexToName, timed, transcripts, captions)
  {
    MergedEntriesContents(order, indexToName, timed, transcripts, captions);
  }

  /** The dict `merge_segment_information` has built after the given keys. */
  ghost function MergedEntries(keys: seq<string>, indexToName: map<string, string>, timed: set<string>,
                               transcripts: map<string, string>, captions: map<string, string>): map<string, Entry>
    requires forall i :: 0 <= i < |keys| ==> keys[i] in indexToName
  {
    if |keys| == 0 then map[]
    else
      var k := keys[|keys| - 1];
      MergedEntries(keys[..|keys| - 1], indexToName, timed, transcripts, captions)[k := EntryOf(k, indexToName, timed, transcripts, captions)]
  }

  /** The successful merges among the given keys. */
  ghost function MergeSuccesses(keys: seq<string>, indexToName: map<string, string>, timed: set<string>,
                                transcripts: map<string, string>, captions: map<string, string>): (n: nat)
    requires forall i :: 0 <= i < |keys| ==> keys[i] in indexToName
    ensures n <= |keys|
  {
    if |keys| == 0 then 0
    else
      var k := keys[|keys| - 1];
      MergeSuccesses(keys[..|keys| - 1], indexToName, timed, transcripts, captions) +
      (if Succeeded(EntryOf(k, indexToName, timed, transcripts, captions)) then 1 else 0)
  }

  /** The merged dict has exactly the given keys, each holding the entry built for it. */
  lemma {:induction false} MergedEntriesContents(keys: seq<string>, indexToName: map<string, string>, timed: set<string>,
                                                 transcripts: map<string, string>, captions: map<string, string>)
    requires forall i :: 0 <= i < |keys| ==> keys[i] in indexToName
    ensures forall k :: k in MergedEntries(keys, indexToName, timed, transcripts, captions) <==> k in keys
    ensures forall k :: k in keys ==> MergedEntries(keys, indexToName, timed, transcripts, captions)[k] ==
                                      EntryOf(k, indexToName, timed, transcripts, captions)
  {
    if |keys| > 0 {
      var front := keys[..|keys| - 1];
      MergedEntriesContents(front, indexToName, timed, transcripts, captions);
      assert forall k :: k in keys <==> k in front || k == keys[|keys| - 1];
    }
  }

  /**
   * A segment merges successfully exactly when it has times and a caption
   * or a transcript; segments with neither are counted as failed.
   */
  lemma MergeSuccessIff(index: string, indexToName: map<string, string>, timed: set<string>,
                        transcripts: map<string, string>, captions: map<string, string>)
    requires index in indexToName
    ensures Succeeded(EntryOf(index, indexToName, timed, transcripts, captions)) <==>
            index in timed && (GetText(captions, index) != "" || GetText(transcripts, index) != "")
  {
  }

  // ------------------------------------------------------------ captioning

  /** What captioning one segment gives: the model's text, or the message of the exception raised. */
  datatype CaptionOutcome = Captioned(text: string) | CaptionError(message: string)

  /** The text stored for a segment: the caption without newlines, or the failure notice. */
  function StoredCaption(o: CaptionOutcome): (r: string)
    ensures o.Captioned? ==> '\n' !in r
  {
    match o
    case Captioned(text) => RemoveChar(text, '\n')
    case CaptionError(message) => "字幕生成失败: " + message
  }

  /** `captions_by_segment/segment_{index.zfill(3)}.json`, the per-segment artifact. */
  function CaptionArtifact(index: string): seq<string>
  {
    ["captions_by_segment", "segment_" + ZFill(index, 3) + ".json"]
  }

  /** A per-segment artifact written to disk: its path and the `success` flag of the record it holds. */
  datatype Artifact = Artifact(path: seq<string>, success: bool)

  /** The message `segment_caption` queues before it raises RuntimeError. */
  function CaptionErrorMessage(message: string): string
  {
    "Error in segment_caption:\n " + message
  }

  /**
   * What the try block of one segment ends with. Captioning may raise; with a
   * storage manager, writing the success record may raise too, and then the
   * segment goes to the except branch with that write's exception.
   * `write(index, success)` is the exception `_atomic_write` raises for the
   * segment's record, if any.
   */
  function Attempt(index: string, captioner: string -> CaptionOutcome, storage: bool,
                   write: (string, bool) -> Option<string>): (o: CaptionOutcome)
    ensures o.Captioned? ==> captioner(index).Captioned?
  {
    if captioner(index).Captioned? && storage && write(index, true).Some? then CaptionError(write(index, true).value)
    else captioner(index)
  }

  /**
   * The segment loop's state: the shared dict, the three counters, the
   * artifacts written, and the exception that ended the loop, if any.
   */
  datatype CaptionLoop = CaptionLoop(result: map<string, string>, processed: nat, successful: nat, failed: nat,
                                     artifacts: seq<Artifact>, aborted: Option<string>)

  /**
   * One turn of the segment loop. A captioned segment counts as successful
   * before its record is written; when the try block raises, the segment
   * also counts as failed, gets the failure notice, and its failure record is
   * written. An exception from that last write leaves the loop without
   * counting the segment as processed.
   */
  function CaptionStep(s: CaptionLoop, index: string, captioner: string -> CaptionOutcome, storage: bool,
                       write: (string, bool) -> Option<string>): CaptionLoop
  {
    if s.aborted.Some? then s
    else
      var a := Attempt(index, captioner, storage, write);
      var successful := s.successful + (if captioner(index).Captioned? then 1 else 0);
      var failed := s.failed + (if a.CaptionError? then 1 else 0);
      var result := s.result[index := StoredCaption(a)];
      if a.CaptionError? && storage && write(index, false).Some? then
        CaptionLoop(result, s.processed, successful, failed, s.artifacts, write(index, false))
      else
        var written := if storage then [Artifact(CaptionArtifact(index), a.Captioned?)] else [];
        CaptionLoop(result, s.processed + 1, successful, failed, s.artifacts + written, None)
  }

  /** The segment loop over `keys`, from the shared dict `prior`. */
  function CaptionRun(prior: map<string, string>, keys: seq<string>, captioner: string -> CaptionOutcome, storage: bool,
                      write: (string, bool) -> Option<string>): CaptionLoop
  {
    if |keys| == 0 then CaptionLoop(prior, 0, 0, 0, [], None)
    else CaptionStep(CaptionRun(prior, keys[..|keys| - 1], captioner, storage, write), keys[|keys| - 1], captioner, storage, write)
  }

  datatype CaptionStats = CaptionStats(processed: nat, successful: nat, failed: nat)

  /**
   * `segment_caption`. `storage` says whether a storage manager exists (a
   * session id was given and the manager could be built); `setupError` is
   * the exception raised before the loop (saving the configuration, loading
   * the model, opening the video) and `finishError` the one raised after it
   * (saving the results and statistics). Any exception outside the
   * per-segment try queues its message and raises RuntimeError.
   */
  method SegmentCaption(order: seq<string>, captioner: string -> CaptionOutcome, captionResult: map<string, string>,
                        storage: bool, write: (string, bool) -> Option<string>,
                        setupError: Option<string>, finishError: Option<string>)
    returns (result: map<string, string>, stats: CaptionStats, artifacts: seq<Artifact>, queued: seq<string>,
             r: Result<(), PyError>)
    ensures setupError.Some? ==>
              result == captionResult && stats == CaptionStats(0, 0, 0) && artifacts == [] &&
              queued == [CaptionErrorMessage(setupError.value)] && r == Err(RuntimeError(""))
    ensures setupError.None? ==>
              var run := CaptionRun(captionResult, order, captioner, storage, write);
              result == run.result && stats == CaptionStats(run.processed, run.successful, run.failed) &&
              artifacts == run.artifacts &&
              (run.aborted.Some? ==> queued == [CaptionErrorMessage(run.aborted.value)] && r == Err(RuntimeError(""))) &&
              (run.aborted.None? && finishError.Some? ==>
                 queued == [CaptionErrorMessage(finishError.value)] && r == Err(RuntimeError(""))) &&
              (run.aborted.None? && finishError.None? ==> queued == [] && r == Ok(()))
  {
    if setupError.Some? {
      return captionResult, CaptionStats(0, 0, 0), [], [CaptionErrorMessage(setupError.value)], Err(RuntimeError(""));
    }
    result := captionResult;
    var processed, successful, failed := 0, 0, 0;
    artifacts := [];
    var i := 0;
    while i < |order|
      invariant 0 <= i <= |order|
      invariant CaptionRun(captionResult, order[..i], captioner, storage, write)
                == CaptionLoop(result, processed, successful, failed, artifacts, None)
    {
      CaptionRunSnoc(captionResult, order, i, captioner, storage, write);
      var failure;
      result, processed, successful, failed, artifacts, failure :=
        CaptionSegment(result, processed, successful, failed, artifacts, order[i], captioner, storage, write);
      if failure.Some? {
        CaptionRunStops(captionResult, order, i + 1, captioner, storage, write);
        assert order[..|order|] == order;
        stats := CaptionStats(processed, successful, failed);
        return result, stats, artifacts, [CaptionErrorMessage(failure.value)], Err(RuntimeError(""));
      }
      i := i + 1;
    }
    assert order[..i] == order;
    stats := CaptionStats(processed, successful, failed);
    if finishError.Some? {
      return result, stats, artifacts, [CaptionErrorMessage(finishError.value)], Err(RuntimeError(""));
    }
    queued, r := [], Ok(());
  }

  /**
   * One turn of the segment loop: the try block around captioning and the
   * success record, then the except branch with the failure record.
   * `failure` is the exception that escapes the turn, if any.
   */
  method CaptionSegment(result: map<string, string>, processed: nat, successful: nat, failed: nat, artifacts: seq<Artifact>,
                        index: string, captioner: string -> CaptionOutcome, storage: bool,
                        write: (string, bool) -> Option<string>)
    returns (result': map<string, string>, processed': nat, successful': nat, failed': nat, artifacts': seq<Artifact>,
             failure: Option<string>)
    ensures CaptionLoop(result', processed', successful', failed', artifacts', failure)
            == CaptionStep(CaptionLoop(result, processed, successful, failed, artifacts, None), index, captioner, storage, write)
  {
    result', processed', successful', failed', artifacts', failure := result, processed, successful, failed, artifacts, None;
    var outcome := captioner(index);
    var error: Option<string> := None;
    if outcome.Captioned? {
      result' := result'[index := RemoveChar(outcome.text, '\n')];
      successful' := successful' + 1;
      if storage {
        error := write(index, true);
        if error.None? {
          artifacts' := artifacts' + [Artifact(CaptionArtifact(index), true)];
        }
      }
    } else {
      error := Some(outcome.message);
    }
    if error.Some? {
      failed' := failed' + 1;
      result' := result'[index := StoredCaption(CaptionError(error.value))];
      if storage {
        failure := write(index, false);
        if failure.Some? {
          return;
        }
        artifacts' := artifacts' + [Artifact(CaptionArtifact(index), false)];
      }
    }
    processed' := processed' + 1;
  }

  /** One more segment is one more turn of the loop. */
  lemma CaptionRunSnoc(prior: map<string, string>, keys: seq<string>, i: nat, captioner: string -> CaptionOutcome,
                       storage: bool, write: (string, bool) -> Option<string>)
    requires i < |keys|
    ensures CaptionRun(prior, keys[..i + 1], captioner, storage, write)
            == CaptionStep(CaptionRun(prior, keys[..i], captioner, storage, write), keys[i], captioner, storage, write)
  {
    assert keys[..i + 1][..i] == keys[..i];
  }

  /** Once the loop has raised, the later segments change nothing. */
  lemma {:induction false} CaptionRunStops(prior: map<string, string>, keys: seq<string>, n: nat,
                                           captioner: string -> CaptionOutcome, storage: bool,
                                           write: (string, bool) -> Option<string>)
    requires n <= |keys| && CaptionRun(prior, keys[..n], captioner, storage, write).aborted.Some?
    ensures CaptionRun(prior, keys, captioner, storage, write) == CaptionRun(prior, keys[..n], captioner, storage, write)
    decreases |keys|
  {
    if n < |keys| {
      var init := keys[..|keys| - 1];
      assert init[..n] == keys[..n];
      CaptionRunStops(prior, init, n, captioner, storage, write);
    } else {
      assert keys[..n] == keys;
    }
  }

  /** The segments that count as both successful and failed: captioned, but their success record could not be written. */
  function CountedTwice(keys: seq<string>, captioner: string -> CaptionOutcome, storage: bool,
                        write: (string, bool) -> Option<string>): (n: nat)
    ensures n <= |keys|
  {
    if |keys| == 0 then 0
    else
      var k := keys[|keys| - 1];
      CountedTwice(keys[..|keys| - 1], captioner, storage, write) +
      (if captioner(k).Captioned? && Attempt(k, captioner, storage, write).CaptionError? then 1 else 0)
  }

  /**
   * The counters: a loop that ran to the end processed every segment, counted
   * as successful exactly those captioned, and counted the segments whose
   * success record could not be written twice; a loop that raised stopped
   * before processing them all.
   */
  lemma {:induction false} RunCounts(prior: map<string, string>, keys: seq<string>, captioner: string -> CaptionOutcome,
                                     storage: bool, write: (string, bool) -> Option<string>)
    ensures var run := CaptionRun(prior, keys, captioner, storage, write);
            run.aborted.None? ==>
              run.processed == |keys| && run.successful == CaptionSuccesses(keys, captioner) &&
              run.successful + run.failed == run.processed + CountedTwice(keys, captioner, storage, write)
    ensures var run := CaptionRun(prior, keys, captioner, storage, write);
            run.aborted.Some? ==> run.processed < |keys|
  {
    if |keys| > 0 {
      RunCounts(prior, keys[..|keys| - 1], captioner, storage, write);
    }
  }

  /**
   * With a storage manager, a loop that ran to the end wrote one record per
   * segment, in order, flagged successful exactly when the try block went
   * through.
   */
  lemma {:induction false} StoredArtifacts(prior: map<string, string>, keys: seq<string>, captioner: string -> CaptionOutcome,
                                           write: (string, bool) -> Option<string>)
    ensures var run := CaptionRun(prior, keys, captioner, true, write);
            run.aborted.None? ==>
              |run.artifacts| == |keys| &&
              forall i :: 0 <= i < |keys| ==>
                run.artifacts[i] == Artifact(CaptionArtifact(keys[i]), Attempt(keys[i], captioner, true, write).Captioned?)
  {
    if |keys| > 0 {
      var init := keys[..|keys| - 1];
      StoredArtifacts(prior, init, captioner, write);
      var before := CaptionRun(prior, init, captioner, true, write);
      var run := CaptionStep(before, keys[|keys| - 1], captioner, true, write);
      if run.aborted.None? {
        var k := keys[|keys| - 1];
        assert before.aborted.None?;
        assert run.artifacts == before.artifacts + [Artifact(CaptionArtifact(k), Attempt(k, captioner, true, write).Captioned?)];
        forall i | 0 <= i < |keys|
          ensures run.artifacts[i] == Artifact(CaptionArtifact(keys[i]), Attempt(keys[i], captioner, true, write).Captioned?)
        {
          if i < |init| {
            assert keys[i] == init[i];
          }
        }
      }
    }
  }

  /** Without a storage manager nothing is written, nothing raises, and each segment counts once. */
  lemma {:induction false} UnstoredRun(prior: map<string, string>, keys: seq<string>, captioner: string -> CaptionOutcome,
                                       write: (string, bool) -> Option<string>)
    ensures var run := CaptionRun(prior, keys, captioner, false, write);
            run.aborted.None? && run.artifacts == [] && run.processed == |keys| &&
            run.successful == CaptionSuccesses(keys, captioner) && run.successful + run.failed == run.processed &&
            run.result == Captions(prior, keys, captioner)
  {
    if |keys| > 0 {
      UnstoredRun(prior, keys[..|keys| - 1], captioner, write);
    }
  }

  /**
   * The shared dict after a loop that ran to the end: every segment holds the
   * text its try block ended with, and every other key is as it was.
   */
  lemma {:induction false} RunResultContents(prior: map<string, string>, keys: seq<string>, captioner: string -> CaptionOutcome,
                                             storage: bool, write: (string, bool) -> Option<string>)
    ensures var run := CaptionRun(prior, keys, captioner, storage, write);
            run.aborted.None? ==>
              (forall k :: k in run.result <==> k in prior || k in keys) &&
              (forall k :: k in keys ==> run.result[k] == StoredCaption(Attempt(k, captioner, storage, write))) &&
              (forall k :: k in prior && k !in keys ==> run.result[k] == prior[k])
  {
    if |keys| > 0 {
      var init := keys[..|keys| - 1];
      RunResultContents(prior, init, captioner, storage, write);
      assert forall k :: k in keys <==> k in init || k == keys[|keys| - 1];
    }
  }

  /**
   * A caption whose record cannot be written counts as successful and as
   * failed, while the segment is processed once, and the dict holds the
   * failure notice.
   */
  lemma WriteFailureCountedTwice(k: string, m: string, captioner: string -> CaptionOutcome, prior: map<string, string>,
                                 write: (string, bool) -> Option<string>)
    requires captioner(k).Captioned? && write(k, true) == Some(m) && write(k, false).None?
    ensures var run := CaptionRun(prior, [k], captioner, true, write);
            run.processed == 1 && run.successful == 1 && run.failed == 1 &&
            k in run.result && run.result[k] == StoredCaption(CaptionError(m)) && run.artifacts == [Artifact(CaptionArtifact(k), false)] &&
            run.aborted.None?
  {
    assert [k][..0] == [];
    var start := CaptionLoop(prior, 0, 0, 0, [], None);
    assert CaptionRun(prior, [k], captioner, true, write) == CaptionStep(start, k, captioner, true, write);
  }

  /** When the failure record cannot be written either, the loop raises with the segment unprocessed. */
  lemma FailureWriteRaises(k: string, m: string, captioner: string -> CaptionOutcome, prior: map<string, string>,
                           write: (string, bool) -> Option<string>)
    requires captioner(k).CaptionError? && write(k, false) == Some(m)
    ensures var run := CaptionRun(prior, [k], captioner, true, write);
            run.aborted == Some(m) && run.processed == 0 && run.failed == 1 && run.artifacts == []
  {
    assert [k][..0] == [];
    var start := CaptionLoop(prior, 0, 0, 0, [], None);
    assert CaptionRun(prior, [k], captioner, true, write) == CaptionStep(start, k, captioner, true, write);
  }

  /** The shared caption dict after the given segments have been captioned. */
  ghost function Captions(prior: map<string, string>, keys: seq<string>, captioner: string -> CaptionOutcome): map<string, string>
  {
    if |keys| == 0 then prior
    else
      var k := keys[|keys| - 1];
      Captions(prior, keys[..|keys| - 1], captioner)[k := StoredCaption(captioner(k))]
  }

  /** The segments among `keys` that were captioned without an exception. */
  ghost function CaptionSuccesses(keys: seq<string>, captioner: string -> CaptionOutcome): (n: nat)
    ensures n <= |keys|
  {
    if |keys| == 0 then 0
    else CaptionSuccesses(keys[..|keys| - 1], captioner) + (if captioner(keys[|keys| - 1]).Captioned? then 1 else 0)
  }

  /**
   * Captioning adds every segment to the dict with its stored text and
   * leaves every other key as it was.
   */
  lemma {:induction false} CaptionsContents(prior: map<string, string>, keys: seq<string>, captioner: string -> CaptionOutcome)
    ensures forall k :: k in Captions(prior, keys, captioner) <==> k in prior || k in keys
    ensures forall k :: k in keys ==> Captions(prior, keys, captioner)[k] == StoredCaption(captioner(k))
    ensures forall k :: k in prior && k !in keys ==> Captions(prior, keys, captioner)[k] == prior[k]
  {
    if |keys| > 0 {
      var front := keys[..|keys| - 1];
      CaptionsContents(prior, front, captioner);
      assert forall k :: k in keys <==> k in front || k == keys[|keys| - 1];
    }
  }

  /** When every segment is captioned, all of them count as successful. */
  lemma {:induction false} AllCaptioned(keys: seq<string>, captioner: string -> CaptionOutcome)
    requires forall k :: k in keys ==> captioner(k).Captioned?
    ensures CaptionSuccesses(keys, captioner) == |keys|
  {
    if |keys| > 0 {
      AllCaptioned(keys[..|keys| - 1], captioner);
    }
  }

  /** Distinct segment indices of up to three digits get distinct artifact files. */
  lemma CaptionArtifactsDistinct(a: string, b: string)
    requires ZFill(a, 3) != ZFill(b, 3)
    ensures CaptionArtifact(a) != CaptionArtifact(b)
  {
    var na, nb := CaptionArtifact(a)[1], CaptionArtifact(b)[1];
    assert na[8..|na| - 5] == ZFill(a, 3);
    assert nb[8..|nb| - 5] == ZFill(b, 3);
  }

  // -------------------------------------------------------- segment ids

  /** `{video_name}_{index}`, the id the vector store gives a segment. */
  function SegmentId(videoName: string, index: string): string
  {
    videoName + "_" + index
  }

  /** `('_'.join(id.split('_')[:-1]), id.split('_')[-1])`: the video name and the index of a segment id. */
  function ParseSegmentId(id: string): (string, string)
  {
    var parts := Split(id, '_');
    (Join(parts[..|parts| - 1], "_"), parts[|parts| - 1])
  }

  /**
   * Parsing inverts `SegmentId` whenever the index has no '_', even when
   * the video name itself contains underscores.
   */
  lemma ParseSegmentIdInverse(videoName: string, index: string)
    requires '_' !in index
    ensures ParseSegmentId(SegmentId(videoName, index)) == (videoName, index)
  {
    SplitAppend(videoName, index, '_');
    var parts := Split(SegmentId(videoName, index), '_');
    assert parts[..|parts| - 1] == Split(videoName, '_');
    JoinSplit(videoName, '_');
  }

  /** The indices the splitter makes are plain counters, so ids built from them always parse back. */
  lemma CounterIdsParse(videoName: string, index: nat)
    ensures ParseSegmentId(SegmentId(videoName, NatToString(index))) == (videoName, NatToString(index))
  {
    var s := NatToString(index);
    assert forall k :: 0 <= k < |s| ==> IsDigit(s[k]);
    ParseSegmentIdInverse(videoName, s);
  }

  /** What is stored for one indexed segment of a video. */
  datatype SegmentData = SegmentData(time: string, transcript: string)

  /**
   * The lookups `retrieved_segment_caption` makes for one id before it
   * opens the video: the video's path, its segment table, the segment
   * under the index, the two fields of its time split at '-', and `eval` of
   * each field (a parameter here).  The first that fails gives the error:
   * KeyError of the video name, KeyError of the index, IndexError when the
   * time has one field, or the error `eval` raises.
   */
  function SegmentTimes(id: string, videoPaths: map<string, string>, videoSegments: map<string, map<string, SegmentData>>,
                        eval: string -> Result<real, PyError>): (r: Result<(real, real), PyError>)
  {
    var (video, index) := ParseSegmentId(id);
    if video !in videoPaths || video !in videoSegments then Err(KeyError(video))
    else if index !in videoSegments[video] then Err(KeyError(index))
    else
      var fields := Split(videoSegments[video][index].time, '-');
      if |fields| < 2 then Err(IndexError("list index out of range"))
      else match eval(fields[0])
        case Err(e) => Err(e)
        case Ok(start) =>
          match eval(fields[1])
          case Err(e) => Err(e)
          case Ok(end) => Ok((start, end))
  }

  /**
   * The lookups succeed exactly for an id that names a known video and
   * segment whose time has two fields that both evaluate, and then give
   * those two values.
   */
  lemma SegmentTimesOk(id: string, videoPaths: map<string, string>, videoSegments: map<string, map<string, SegmentData>>,
                       eval: string -> Result<real, PyError>)
    ensures var (video, index) := ParseSegmentId(id);
            SegmentTimes(id, videoPaths, videoSegments, eval).Ok? <==>
              video in videoPaths && video in videoSegments && index in videoSegments[video] &&
              |Split(videoSegments[video][index].time, '-')| >= 2 &&
              eval(Split(videoSegments[video][index].time, '-')[0]).Ok? &&
              eval(Split(videoSegments[video][index].time, '-')[1]).Ok?
    ensures var (video, index) := ParseSegmentId(id);
            SegmentTimes(id, videoPaths, videoSegments, eval).Ok? ==>
              var fields := Split(videoSegments[video][index].time, '-');
              SegmentTimes(id, videoPaths, videoSegments, eval).value == (eval(fields[0]).value, eval(fields[1]).value)
  {
  }

  /**
   * A segment id of a known video whose index is not in that video's
   * table raises KeyError of the index, not of the id.
   */
  lemma UnknownIndexKeyError(videoName: string, index: string, videoPaths: map<string, string>,
                             videoSegments: map<string, map<string, SegmentData>>, eval: string -> Result<real, PyError>)
    requires '_' !in index && videoName in videoPaths && videoName in videoSegments && index !in videoSegments[videoName]
    ensures SegmentTimes(SegmentId(videoName, index), videoPaths, videoSegments, eval) == Err(KeyError(index))
  {
    ParseSegmentIdInverse(videoName, index);
  }

  /** The content one retrieved id is captioned to, or the error its lookups raise. */
  function RetrievedContent(id: string, videoPaths: map<string, string>, videoSegments: map<string, map<string, SegmentData>>,
                            eval: string -> Result<real, PyError>, captioner: string -> string): (r: Result<string, PyError>)
    ensures r.Ok? <==> SegmentTimes(id, videoPaths, videoSegments, eval).Ok?
    ensures r.Err? ==> r.error == SegmentTimes(id, videoPaths, videoSegments, eval).error
    ensures r.Ok? ==> r.value == Content(RemoveChar(captioner(id), '\n'), TranscriptOf(id, videoSegments))
  {
    match SegmentTimes(id, videoPaths, videoSegments, eval)
    case Err(e) => Err(e)
    case Ok(_) => Ok(Content(RemoveChar(captioner(id), '\n'), TranscriptOf(id, videoSegments)))
  }

  /**
   * `retrieved_segment_caption`: caption every retrieved segment again and
   * key the content by its id; the first id whose lookups fail raises
   * their error.
   */
  method RetrievedSegmentCaption(retrieved: seq<string>, videoPaths: map<string, string>,
                                 videoSegments: map<string, map<string, SegmentData>>,
                                 eval: string -> Result<real, PyError>, captioner: string -> string)
    returns (r: Result<map<string, string>, PyError>)
    ensures r.Ok? <==> forall i :: 0 <= i < |retrieved| ==> SegmentTimes(retrieved[i], videoPaths, videoSegments, eval).Ok?
    ensures r.Ok? ==> r.value.Keys == set i | 0 <= i < |retrieved| :: retrieved[i]
    ensures r.Ok? ==> forall i :: 0 <= i < |retrieved| ==>
              r.value[retrieved[i]] == Content(RemoveChar(captioner(retrieved[i]), '\n'), TranscriptOf(retrieved[i], videoSegments))
    ensures r.Err? ==> exists i :: 0 <= i < |retrieved| && SegmentTimes(retrieved[i], videoPaths, videoSegments, eval) == Err(r.error) &&
                                   forall j :: 0 <= j < i ==> SegmentTimes(retrieved[j], videoPaths, videoSegments, eval).Ok?
  {
    r := CollectValues(retrieved, id => RetrievedContent(id, videoPaths, videoSegments, eval, captioner));
  }

  function TranscriptOf(id: string, videoSegments: map<string, map<string, SegmentData>>): string
  {
    var (video, index) := ParseSegmentId(id);
    if video in videoSegments && index in videoSegments[video] then videoSegments[video][index].transcript else ""
  }
}
