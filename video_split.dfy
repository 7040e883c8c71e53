// Cutting a video into fixed-length segments: the start-time rule that
// folds a short tail into the previous segment, the segment names and
// timestamps `split_video` records, and the counters of
// `saving_video_segments`.

module VideoSplit {
  import opened Common

  /** A tail shorter than this many seconds is folded into the previous segment. */
  const ShortTail: int := 5

  /** `os.path.basename(video_path).split('.')[0]`: the base name up to its first '.'. */
  function VideoName(videoPath: string): (r: string)
    ensures '.' !in r && '/' !in r
    ensures r <= Basename(videoPath)
    ensures '.' !in Basename(videoPath) ==> r == Basename(videoPath)
  {
    var r := Split(Basename(videoPath), '.')[0];
    assert forall k :: 0 <= k < |r| ==> r[k] == Basename(videoPath)[k];
    r
  }

  /** `range(0, total, step)` for a positive step. */
  function RangeStarts(total: int, step: int): (r: seq<int>)
    requires step > 0
    ensures forall i :: 0 <= i < |r| ==> r[i] == i * step && r[i] < total
    ensures |r| * step >= total
  {
    if total <= 0 then []
    else
      var n := (total + step - 1) / step;
      assert n * step + (total + step - 1) % step == total + step - 1;
      assert (n - 1) * step == n * step - step;
      assert forall i :: 0 <= i < n ==> i * step <= (n - 1) * step by {
        forall i | 0 <= i < n ensures i * step <= (n - 1) * step {
          MulLe(i, n - 1, step);
        }
      }
      seq(n, i => i * step)
  }

  lemma MulLe(a: int, b: int, c: int)
    requires a <= b && c >= 0
    ensures a * c <= b * c
  {
  }

  /**
   * The start times: `range(0, total, step)`, dropping its last element when
   * there is more than one and the tail after it is shorter than 5 seconds.
   * A zero step is the ValueError `range` raises; a negative one yields no
   * starts from a non-negative length.
   */
  function StartTimes(total: nat, step: int): (r: Result<seq<int>, PyError>)
    ensures r.Err? <==> step == 0
    ensures step < 0 ==> r == Ok([])
  {
    if step == 0 then Err(ValueError("range() arg 3 must not be zero"))
    else if step < 0 then Ok([])
    else
      var starts := RangeStarts(total, step);
      if |starts| > 1 && total - starts[|starts| - 1] < ShortTail then Ok(starts[..|starts| - 1]) else Ok(starts)
  }

  /** A segment's end: `min(start + step, total)`, except that the last start ends at `total`. */
  function SegmentEnd(starts: seq<int>, i: nat, total: int, step: int): int
    requires i < |starts|
  {
    if starts[i] != starts[|starts| - 1] then Min(starts[i] + step, total) else total
  }

  function Min(a: int, b: int): int { if a <= b then a else b }

  /** The (start, end) timestamp of every segment, in order. */
  function Segments(total: nat, step: int): (r: seq<(int, int)>)
    requires step != 0
  {
    Cut(StartTimes(total, step).value, total, step)
  }

  /** Each start time paired with its segment's end. */
  function Cut(starts: seq<int>, total: int, step: int): (r: seq<(int, int)>)
    ensures |r| == |starts|
    ensures forall i :: 0 <= i < |starts| ==> r[i] == (starts[i], SegmentEnd(starts, i, total, step))
  {
    seq(|starts|, i requires 0 <= i < |starts| => (starts[i], SegmentEnd(starts, i, total, step)))
  }

  /**
   * The segments tile [0, total]: the first starts at 0, each ends where the
   * next starts, the last ends at `total`, and none is empty.
   */
  lemma SegmentsTile(total: nat, step: int)
    requires step > 0
    ensures var segs := Segments(total, step);
            (total == 0 <==> |segs| == 0) &&
            (|segs| > 0 ==> segs[0].0 == 0 && segs[|segs| - 1].1 == total) &&
            (forall i :: 0 <= i < |segs| - 1 ==> segs[i].1 == segs[i + 1].0) &&
            (forall i :: 0 <= i < |segs| ==> 0 <= segs[i].0 < segs[i].1 <= total)
  {
    var starts := StartTimes(total, step).value;
    var all := RangeStarts(total, step);
    var segs := Segments(total, step);
    assert starts <= all;
    forall i | 0 <= i < |segs| - 1
      ensures segs[i].1 == segs[i + 1].0
    {
      assert starts[i] == i * step && starts[i + 1] == (i + 1) * step == i * step + step;
      StartsDistinct(all, step, i, |starts| - 1);
    }
    forall i | 0 <= i < |segs|
      ensures 0 <= segs[i].0 < segs[i].1 <= total
    {
      assert starts[i] == i * step;
      MulLe(0, i, step);
    }
  }

  lemma StartsDistinct(all: seq<int>, step: int, i: nat, j: nat)
    requires step > 0 && i < j < |all|
    requires forall k :: 0 <= k < |all| ==> all[k] == k * step
    ensures all[i] < all[j]
  {
    assert all[j] - all[i] == (j - i) * step;
  }

  /**
   * Every segment but the last is exactly `step` long; the last is at most
   * `step + 4` long, and at most `step` unless a short tail was folded in.
   */
  lemma SegmentLengths(total: nat, step: int)
    requires step > 0
    ensures var segs := Segments(total, step);
            (forall i :: 0 <= i < |segs| - 1 ==> segs[i].1 - segs[i].0 == step) &&
            (|segs| > 0 ==> segs[|segs| - 1].1 - segs[|segs| - 1].0 < step + ShortTail) &&
            (|segs| == |RangeStarts(total, step)| ==> forall i :: 0 <= i < |segs| ==> segs[i].1 - segs[i].0 <= step)
  {
    var starts := StartTimes(total, step).value;
    var all := RangeStarts(total, step);
    var segs := Segments(total, step);
    SegmentsTile(total, step);
    forall i | 0 <= i < |segs| - 1
      ensures segs[i].1 - segs[i].0 == step
    {
      assert segs[i].1 == segs[i + 1].0 == starts[i + 1] == all[i + 1];
      assert segs[i].0 == starts[i] == all[i];
      MulSucc(i, step);
    }
    if |segs| > 0 {
      var n := |all|;
      MulSucc(n - 1, step);
      assert all[n - 1] == n * step - step;
      if |segs| < n {
        MulSucc(n - 2, step);
        assert starts[|segs| - 1] == all[n - 2] == all[n - 1] - step;
      }
    }
  }

  /** `{timestamp}-{index}-{start}-{end}`. */
  function SegmentName(timestamp: string, index: nat, seg: (int, int)): string
  {
    timestamp + "-" + NatToString(index) + "-" + IntToString(seg.0) + "-" + IntToString(seg.1)
  }

  /**
   * A segment name splits on '-' into the timestamp, the index and the
   * bounds, so its last two fields are the start and the end.
   */
  lemma SegmentNameFields(timestamp: string, index: nat, seg: (int, int))
    requires '-' !in timestamp && seg.0 >= 0 && seg.1 >= 0
    ensures Split(SegmentName(timestamp, index, seg), '-') ==
            [timestamp, NatToString(index), IntToString(seg.0), IntToString(seg.1)]
  {
    var i, a, b := NatToString(index), IntToString(seg.0), IntToString(seg.1);
    assert '-' !in i && '-' !in a && '-' !in b by {
      assert forall k :: 0 <= k < |i| ==> IsDigit(i[k]);
      assert forall k :: 0 <= k < |a| ==> IsDigit(a[k]);
      assert forall k :: 0 <= k < |b| ==> IsDigit(b[k]);
    }
    SplitFour(timestamp, i, a, b, '-');
  }

  /** The keys "0", "1", ..., the first `n` counters as text. */
  function Keys(n: nat): set<string>
  {
    set i | 0 <= i < n :: NatToString(i)
  }

  datatype SplitResult = SplitResult(
    videoName: string,
    indexToName: map<string, string>,
    times: map<string, (int, int)>,
    audioFiles: set<string>,
    count: nat)

  /**
   * `split_video` over the truncated duration: one segment per start time,
   * keyed by its running counter, named and timed as above.  Audio is written
   * for every segment whose extraction does not fail; a failed extraction is
   * only logged.  Opening the video may fail, which is re-raised.
   */
  method SplitVideo(videoPath: string, timestamp: string, total: nat, step: int,
                    audioFails: set<nat>, audioFormat: string, openFails: bool)
    returns (r: Result<SplitResult, PyError>)
    ensures openFails ==> r.Err?
    ensures !openFails ==> (r.Ok? <==> step != 0)
    ensures r.Ok? ==>
      var segs := Segments(total, step);
      var names := SegmentNames(timestamp, segs);
      r.value.videoName == VideoName(videoPath) && r.value.count == |segs| &&
      r.value.indexToName == Counted(names, |segs|) &&
      r.value.times == Counted(segs, |segs|) &&
      r.value.audioFiles == AudioFiles(names, |segs|, audioFails, "." + audioFormat)
  {
    if openFails {
      return Err(IOError("cannot open video"));
    }
    var startTimes := StartTimes(total, step);
    if startTimes.Err? {
      return Err(startTimes.error);
    }
    var names, times, audio := CutSegments(startTimes.value, timestamp, total, step, audioFails, audioFormat);
    r := Ok(SplitResult(VideoName(videoPath), names, times, audio, |startTimes.value|));
  }

  /** The loop of `split_video` over the start times, advancing the segment counter. */
  method CutSegments(starts: seq<int>, timestamp: string, total: nat, step: int, audioFails: set<nat>, audioFormat: string)
    returns (names: map<string, string>, times: map<string, (int, int)>, audio: set<string>)
    ensures var segs := Cut(starts, total, step);
            var segNames := SegmentNames(timestamp, segs);
            names == Counted(segNames, |segs|) && times == Counted(segs, |segs|) &&
            audio == AudioFiles(segNames, |segs|, audioFails, "." + audioFormat)
  {
    ghost var segs := Cut(starts, total, step);
    ghost var segNames := SegmentNames(timestamp, segs);
    names, times, audio := map[], map[], {};
    var index := 0;
    while index < |starts|
      invariant 0 <= index <= |starts| == |segs| == |segNames|
      invariant names == Counted(segNames, index)
      invariant times == Counted(segs, index)
      invariant audio == AudioFiles(segNames, index, audioFails, "." + audioFormat)
    {
      var start := starts[index];
      var end := if start != starts[|starts| - 1] then Min(start + step, total) else total;
      var key := NatToString(index);
      var seg := (start, end);
      assert seg == segs[index];
      var name := SegmentName(timestamp, index, seg);
      assert name == segNames[index];
      CountedStep(segNames, index);
      CountedStep(segs, index);
      AudioFilesStep(segNames, index, audioFails, "." + audioFormat);
      names := names[key := name];
      times := times[key := seg];
      if index !in audioFails {
        audio := audio + {name + ("." + audioFormat)};
      }
      index := index + 1;
    }
  }

  /** The name of every segment, in order. */
  function SegmentNames(timestamp: string, segs: seq<(int, int)>): (r: seq<string>)
    ensures |r| == |segs|
  {
    seq(|segs|, i requires 0 <= i < |segs| => SegmentName(timestamp, i, segs[i]))
  }

  /** A dict filled by a running counter: "0" maps to the first value, "1" to the second, up to `n`. */
  ghost function Counted<V>(values: seq<V>, n: nat): map<string, V>
    requires n <= |values|
  {
    if n == 0 then map[] else Counted(values, n - 1)[NatToString(n - 1) := values[n - 1]]
  }

  /** The audio files written for the first `n` segments: those whose extraction does not fail. */
  ghost function AudioFiles(names: seq<string>, n: nat, fails: set<nat>, suffix: string): set<string>
    requires n <= |names|
  {
    if n == 0 then {}
    else AudioFiles(names, n - 1, fails, suffix) + (if n - 1 !in fails then {names[n - 1] + suffix} else {})
  }

  lemma CountedStep<V>(values: seq<V>, n: nat)
    requires n < |values|
    ensures Counted(values, n + 1) == Counted(values, n)[NatToString(n) := values[n]]
  {
  }

  lemma AudioFilesStep(names: seq<string>, n: nat, fails: set<nat>, suffix: string)
    requires n < |names|
    ensures AudioFiles(names, n + 1, fails, suffix) ==
            AudioFiles(names, n, fails, suffix) + (if n !in fails then {names[n] + suffix} else {})
  {
  }

  /** A counter-keyed dict holds exactly the keys "0" .. "n-1". */
  lemma {:induction false} CountedKeys<V>(values: seq<V>, n: nat)
    requires n <= |values|
    ensures Counted(values, n).Keys == Keys(n)
  {
    if n > 0 {
      CountedKeys(values, n - 1);
      KeysNext(n - 1);
    }
  }

  /** Key i of a counter-keyed dict holds the i-th value. */
  lemma {:induction false} CountedValues<V>(values: seq<V>, n: nat)
    requires n <= |values|
    ensures forall i :: 0 <= i < n ==> NatToString(i) in Counted(values, n) && Counted(values, n)[NatToString(i)] == values[i]
  {
    if n > 0 {
      CountedValues(values, n - 1);
      FreshKey(n - 1);
    }
  }

  /** Exactly the segments whose audio extraction did not fail have an audio file. */
  lemma {:induction false} AudioFilesMembers(names: seq<string>, n: nat, fails: set<nat>, suffix: string)
    requires n <= |names|
    ensures forall i :: 0 <= i < n && i !in fails ==> names[i] + suffix in AudioFiles(names, n, fails, suffix)
    ensures forall x :: x in AudioFiles(names, n, fails, suffix) ==>
              exists i :: 0 <= i < n && i !in fails && x == names[i] + suffix
  {
    if n > 0 {
      AudioFilesMembers(names, n - 1, fails, suffix);
    }
  }

  lemma FreshKey(n: nat)
    ensures forall i :: 0 <= i < n ==> NatToString(i) != NatToString(n)
  {
    forall i | 0 <= i < n
      ensures NatToString(i) != NatToString(n)
    {
      if NatToString(i) == NatToString(n) {
        NatToStringInjective(i, n);
      }
    }
  }

  lemma KeysNext(n: nat)
    ensures Keys(n + 1) == Keys(n) + {NatToString(n)}
  {
    assert forall key :: key in Keys(n + 1) ==> key in Keys(n) + {NatToString(n)};
  }

  datatype SaveStats = SaveStats(total: nat, processed: nat, failed: nat)

  /** The clip-writing loop of `saving_video_segments`; stops at the first index without a timestamp. */
  method WriteClips(order: seq<string>, indexToName: map<string, string>, times: map<string, (int, int)>,
                    writeFails: set<string>, videoFormat: string)
    returns (missing: Option<string>, processed: nat, written: set<string>)
    requires forall j :: 0 <= j < |order| ==> order[j] in indexToName
    ensures missing.None? <==> forall i :: 0 <= i < |order| ==> order[i] in times
    ensures missing.Some? ==> missing.value in order && missing.value !in times
    ensures missing.None? ==> processed == Count(order, k => k !in writeFails)
    ensures missing.None? ==> written == set i | 0 <= i < |order| && order[i] !in writeFails :: indexToName[order[i]] + "." + videoFormat
  {
    processed := 0;
    written := {};
    var i := 0;
    while i < |order|
      invariant 0 <= i <= |order|
      invariant forall j :: 0 <= j < i ==> order[j] in times
      invariant processed == Count(order[..i], k => k !in writeFails)
      invariant written == set j | 0 <= j < i && order[j] !in writeFails :: indexToName[order[j]] + "." + videoFormat
    {
      var index := order[i];
      if index !in times {
        return Some(index), processed, written;
      }
      assert order[..i + 1] == order[..i] + [index];
      CountAppend(order[..i], [index], k => k !in writeFails);
      if index !in writeFails {
        written := written + {indexToName[index] + "." + videoFormat};
        processed := processed + 1;
      }
      i := i + 1;
    }
    assert order[..i] == order;
    missing := None;
  }

  /**
   * `saving_video_segments`: write one clip per segment, in the order of
   * the index-to-name mapping.  A failed clip only counts as failed; a
   * missing timestamp or an unopenable video aborts with a message queued
   * for the parent and a RuntimeError.
   */
  method SaveVideoSegments(order: seq<string>, indexToName: map<string, string>, times: map<string, (int, int)>,
                           writeFails: set<string>, videoFormat: string, openFails: bool)
    returns (r: Result<SaveStats, PyError>, queued: seq<string>, written: set<string>)
    requires KeyOrder(order, indexToName)
    ensures r.Ok? <==> !openFails && forall i :: 0 <= i < |order| ==> order[i] in times
    ensures r.Ok? ==> queued == [] &&
                      r.value.total == |indexToName| &&
                      r.value.processed == Count(order, k => k !in writeFails) &&
                      r.value.failed == r.value.total - r.value.processed
    ensures r.Ok? ==> written == set i | 0 <= i < |order| && order[i] !in writeFails :: indexToName[order[i]] + "." + videoFormat
    ensures r.Err? ==> r.error.RuntimeError? && |queued| == 1
  {
    queued := [];
    written := {};
    KeyOrderLength(order, indexToName);
    if openFails {
      queued := ["Error in saving_video_segments:\n cannot open video"];
      return Err(RuntimeError("")), queued, written;
    }
    var missing, processed;
    missing, processed, written := WriteClips(order, indexToName, times, writeFails, videoFormat);
    if missing.Some? {
      queued := ["Error in saving_video_segments:\n '" + missing.value + "'"];
      return Err(RuntimeError("")), queued, written;
    }
    r := Ok(SaveStats(|indexToName|, processed, |indexToName| - processed));
  }
}
