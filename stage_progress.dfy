// The web client's processing-stage table and its time and rate
// arithmetic: stage-weighted progress, stage lookup, the three-band
// duration text, the remaining-time estimate and the success rate.
// JavaScript numbers are modelled as exact reals.

module StageProgress {
  import opened Common

  /** One entry of the stage table: the backend step name it matches and its share of the work. */
  datatype ProcessingStage = ProcessingStage(key: string, weight: int)

  const Stages: seq<ProcessingStage> := [
    ProcessingStage("Starting Video", 5),
    ProcessingStage("Splitting Video", 15),
    ProcessingStage("Transcribing Audio", 30),
    ProcessingStage("Processing Segments", 25),
    ProcessingStage("Encoding Features", 20),
    ProcessingStage("One Video Completed", 5)
  ]

  /** `Math.round`: halves go up. */
  function Round(x: real): (r: int)
    ensures x - 0.5 < r as real <= x + 0.5
  {
    (x + 0.5).Floor
  }

  /** The total weight of the first `n` stages. */
  function WeightBefore(stages: seq<ProcessingStage>, n: nat): int
    requires n <= |stages|
  {
    if n == 0 then 0 else WeightBefore(stages, n - 1) + stages[n - 1].weight
  }

  /** `findIndex` on the keys: the first position holding `key`, if any. */
  function FindIndex(stages: seq<ProcessingStage>, key: string): (r: Option<nat>)
    ensures r.Some? ==> r.value < |stages| && stages[r.value].key == key &&
                        forall j :: 0 <= j < r.value ==> stages[j].key != key
    ensures r.None? ==> forall j :: 0 <= j < |stages| ==> stages[j].key != key
  {
    if |stages| == 0 then None
    else if stages[0].key == key then Some(0)
    else
      var rest := FindIndex(stages[1..], key);
      if rest.None? then None else Some(rest.value + 1)
  }

  /**
   * The progress `calculateStageProgress` reports for a stage: 0 for an
   * unknown key, otherwise the share of the total weight that lies
   * strictly before the stage, as a rounded percentage.
   */
  function StageProgressOf(stages: seq<ProcessingStage>, key: string): int
  {
    var total := WeightBefore(stages, |stages|);
    var idx := FindIndex(stages, key);
    if idx.None? || total == 0 then 0
    else Round(WeightBefore(stages, idx.value) as real / total as real * 100.0)
  }

  /**
   * `calculateStageProgress`: one pass over the table summing all weights
   * and the weights before the stage.
   */
  method CalculateStageProgress(stages: seq<ProcessingStage>, key: string) returns (r: int)
    ensures r == StageProgressOf(stages, key)
  {
    var idx := FindIndex(stages, key);
    if idx.None? {
      return 0;
    }
    var stageIndex := idx.value;
    var totalWeight := 0;
    var completedWeight := 0;
    var i := 0;
    while i < |stages|
      invariant 0 <= i <= |stages|
      invariant totalWeight == WeightBefore(stages, i)
      invariant completedWeight == WeightBefore(stages, if i < stageIndex then i else stageIndex)
    {
      totalWeight := totalWeight + stages[i].weight;
      if i < stageIndex {
        completedWeight := completedWeight + stages[i].weight;
      }
      i := i + 1;
    }
    if totalWeight == 0 {
      // JavaScript's 0 / 0 is NaN, and Math.round(NaN) is NaN; the table's weights rule this out.
      return 0;
    }
    r := Round(completedWeight as real / totalWeight as real * 100.0);
  }

  /** The weights of the table sum to 100. */
  lemma StageWeightsTotal()
    ensures WeightBefore(Stages, 6) == 100
  {
    assert WeightBefore(Stages, 1) == 5;
    assert WeightBefore(Stages, 3) == 50;
    assert WeightBefore(Stages, 5) == 95;
  }

  /** With positive weights, the weight before a stage grows along the table. */
  lemma {:induction false} WeightBeforeMonotone(stages: seq<ProcessingStage>, m: nat, n: nat)
    requires m <= n <= |stages|
    requires forall j :: 0 <= j < |stages| ==> stages[j].weight > 0
    ensures WeightBefore(stages, m) <= WeightBefore(stages, n)
    ensures m < n ==> WeightBefore(stages, m) < WeightBefore(stages, n)
    decreases n
  {
    if m < n {
      WeightBeforeMonotone(stages, m, n - 1);
    }
  }

  /** The keys of the table are pairwise distinct. */
  lemma StageKeysDistinct()
    ensures forall j, k :: 0 <= j < k < |Stages| ==> Stages[j].key != Stages[k].key
  {
    assert |Stages[0].key| == 14 && |Stages[1].key| == 15;
    assert Stages[0].key[0] == 'S' && Stages[1].key[0] == 'S' && Stages[2].key[0] == 'T';
    assert Stages[3].key[0] == 'P' && Stages[4].key[0] == 'E' && Stages[5].key[0] == 'O';
  }

  /** With distinct keys, looking up a stage's own key finds that stage. */
  lemma FindOwnKey(stages: seq<ProcessingStage>, i: nat)
    requires i < |stages|
    requires forall j, k :: 0 <= j < k < |stages| ==> stages[j].key != stages[k].key
    ensures FindIndex(stages, stages[i].key) == Some(i)
  {
    var r := FindIndex(stages, stages[i].key);
    assert r.Some?;
    assert !(r.value < i);
  }

  /**
   * The stages of the table report 0, 5, 20, 50, 75 and 95 in order: the
   * progress never decreases along the table and never reaches 100.
   */
  lemma StageProgressValues(i: nat)
    requires i < 6
    ensures StageProgressOf(Stages, Stages[i].key) == [0, 5, 20, 50, 75, 95][i]
  {
    StageWeightsBefore();
    StageKeysDistinct();
    FindOwnKey(Stages, i);
    var w := WeightBefore(Stages, i);
    assert w == [0, 5, 20, 50, 75, 95][i];
    PercentOfHundred(w);
  }

  /** The weight before each stage of the table, and the total. */
  lemma StageWeightsBefore()
    ensures WeightBefore(Stages, 0) == 0 && WeightBefore(Stages, 1) == 5 && WeightBefore(Stages, 2) == 20
    ensures WeightBefore(Stages, 3) == 50 && WeightBefore(Stages, 4) == 75 && WeightBefore(Stages, 5) == 95
    ensures WeightBefore(Stages, 6) == 100
  {
    StageWeightsTotal();
    assert WeightBefore(Stages, 2) == 20;
    assert WeightBefore(Stages, 4) == 75;
  }

  /** A whole number out of 100, as a rounded percentage, is itself. */
  lemma PercentOfHundred(w: int)
    ensures Round(w as real / 100 as real * 100.0) == w
  {
    assert w as real / 100 as real * 100.0 == w as real;
  }

  /** `getStageByKey`: the first stage with that key, or none. */
  function StageByKey(stages: seq<ProcessingStage>, key: string): (r: Option<ProcessingStage>)
    ensures r.Some? <==> exists j :: 0 <= j < |stages| && stages[j].key == key
    ensures r.Some? ==> r.value.key == key && r.value in stages
  {
    var idx := FindIndex(stages, key);
    if idx.None? then None else Some(stages[idx.value])
  }

  /** An unknown key reports no progress. */
  lemma UnknownStageProgress(stages: seq<ProcessingStage>, key: string)
    requires StageByKey(stages, key).None?
    ensures StageProgressOf(stages, key) == 0
  {
  }

  // -------------------------------------------------------- time and rate

  /** The three shapes of `formatProcessingTime`'s text. */
  datatype Duration = Seconds(s: int) | MinutesSeconds(m: int, s: int) | HoursMinutes(h: int, m: int)

  /** The text of a duration: "s秒", "m分s秒" or "h小时m分钟". */
  function Render(d: Duration): string
  {
    match d
    case Seconds(s) => IntToString(s) + "秒"
    case MinutesSeconds(m, s) => IntToString(m) + "分" + IntToString(s) + "秒"
    case HoursMinutes(h, m) => IntToString(h) + "小时" + IntToString(m) + "分钟"
  }

  /** JavaScript's `%` for a non-negative dividend and positive divisor. */
  function Mod(x: real, d: real): (r: real)
    requires x >= 0.0 && d > 0.0
    ensures 0.0 <= r < d
  {
    var frac := x / d - (x / d).Floor as real;
    assert 0.0 <= frac < 1.0;
    assert d * frac < d * 1.0;
    d * frac
  }

  /**
   * `formatProcessingTime` as written: rounded seconds below a minute;
   * floored minutes and rounded remaining seconds below an hour; floored
   * hours and minutes otherwise.  Rounding the remainder can yield 60.
   */
  function FormatProcessingTimeAsWritten(seconds: real): (r: Duration)
    ensures seconds < 60.0 ==> r == Seconds(Round(seconds))
    ensures 60.0 <= seconds < 3600.0 ==> r.MinutesSeconds? && 0 <= r.s <= 60 && r.m == (seconds / 60.0).Floor
    ensures seconds >= 3600.0 ==> r.HoursMinutes? && 0 <= r.m < 60 && r.h == (seconds / 3600.0).Floor
  {
    if seconds < 60.0 then Seconds(Round(seconds))
    else if seconds < 3600.0 then MinutesSeconds((seconds / 60.0).Floor, Round(Mod(seconds, 60.0)))
    else
      var m := (Mod(seconds, 3600.0) / 60.0).Floor;
      HoursMinutes((seconds / 3600.0).Floor, m)
  }

  /** 119.5 seconds reads "1分60秒": the seconds field overflows into a full minute. */
  lemma FormatSixtySeconds()
    ensures FormatProcessingTimeAsWritten(119.5) == MinutesSeconds(1, 60)
  {
    assert (119.5 / 60.0).Floor == 1;
    assert Mod(119.5, 60.0) == 59.5;
  }

  /**
   * The evidently intended text: round the whole duration to seconds
   * first, then split it, so the seconds field is always below 60 and the
   * minutes field of the hour band is below 60 too.
   */
  function FormatProcessingTime(seconds: real): (r: Duration)
    ensures r.Seconds? ==> r.s < 60 && r.s == Round(seconds)
    ensures r.MinutesSeconds? ==> 1 <= r.m < 60 && 0 <= r.s < 60 && r.m * 60 + r.s == Round(seconds)
    ensures r.HoursMinutes? ==> r.h >= 1 && 0 <= r.m < 60 && r.h * 3600 + r.m * 60 <= Round(seconds) < r.h * 3600 + r.m * 60 + 60
  {
    var total := Round(seconds);
    if total < 60 then Seconds(total)
    else if total < 3600 then MinutesSeconds(total / 60, total % 60)
    else HoursMinutes(total / 3600, (total % 3600) / 60)
  }

  /** Both versions agree whenever the duration is a whole number of seconds below an hour. */
  lemma FormatAgreesOnWholeSeconds(n: nat)
    requires n < 3600
    ensures FormatProcessingTimeAsWritten(n as real) == FormatProcessingTime(n as real)
  {
    if n >= 60 {
      var q := n / 60;
      assert n == q * 60 + n % 60;
      assert (n as real / 60.0).Floor == q;
      assert Mod(n as real, 60.0) == (n % 60) as real;
    }
  }

  /**
   * `estimateRemainingTime`: 0 until a video has completed or when there
   * are none; otherwise the average time per completed video times the
   * videos left, rounded.
   */
  function EstimateRemainingTime(completed: int, total: int, elapsed: real): (r: int)
    ensures completed == 0 || total == 0 ==> r == 0
  {
    if completed == 0 || total == 0 then 0
    else Round(elapsed / completed as real * (total - completed) as real)
  }

  /** Nothing remains once every video has completed, and the estimate is never negative for sane counts. */
  lemma EstimateBounds(completed: int, total: int, elapsed: real)
    requires 0 <= completed <= total && elapsed >= 0.0
    ensures completed == total ==> EstimateRemainingTime(completed, total, elapsed) == 0
    ensures EstimateRemainingTime(completed, total, elapsed) >= 0
  {
    if completed > 0 && total > 0 {
      var avg := elapsed / completed as real;
      assert avg >= 0.0;
      assert avg * (total - completed) as real >= 0.0;
    }
  }

  /**
   * `calculateSuccessRate`: 0 with nothing finished, otherwise the rounded
   * percentage of completed among completed and failed, always 0..100.
   */
  function SuccessRate(completed: nat, failed: nat): (r: int)
    ensures 0 <= r <= 100
    ensures completed + failed == 0 ==> r == 0
    ensures completed == 0 ==> r == 0
    ensures failed == 0 && completed > 0 ==> r == 100
  {
    var total := completed + failed;
    if total == 0 then 0
    else
      var x := completed as real / total as real * 100.0;
      assert 0.0 <= completed as real / total as real <= 1.0;
      assert failed == 0 ==> completed as real / total as real == 1.0;
      Round(x)
  }

  /** More completed videos, with the failures fixed, never lowers the rate. */
  lemma SuccessRateMonotone(a: nat, b: nat, failed: nat)
    requires a <= b
    ensures SuccessRate(a, failed) <= SuccessRate(b, failed)
  {
    if a + failed > 0 {
      var x := a as real / (a + failed) as real;
      var y := b as real / (b + failed) as real;
      assert x * ((a + failed) as real) == a as real;
      assert y * ((b + failed) as real) == b as real;
      assert x <= y by {
        assert a as real * (b + failed) as real <= b as real * (a + failed) as real;
      }
    }
  }
}
