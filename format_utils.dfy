// The web client's small formatting and validation helpers: a duration in
// seconds rendered as a clock text, and the type and size check on a video
// file chosen for upload.  Numbers are JavaScript numbers, modelled as exact
// reals; NaN and the infinities are not modelled.

module FormatUtils {
  import opened Common
  import StageProgress

  /** JavaScript's `%` on numbers for a positive divisor: the remainder keeps the dividend's sign. */
  function JsRem(x: real, d: real): (r: real)
    requires d > 0.0
    ensures x >= 0.0 ==> 0.0 <= r < d
    ensures x < 0.0 ==> -d < r <= 0.0
  {
    if x >= 0.0 then StageProgress.Mod(x, d) else -StageProgress.Mod(-x, d)
  }

  /** Dividing by a positive number keeps bounds that were scaled by it. */
  lemma DivBounds(s: real, dd: real, lo: real, hi: real)
    requires dd > 0.0 && lo * dd <= s < hi * dd
    ensures lo <= s / dd < hi
  {
    var y := s / dd;
    assert y * dd == s;
  }

  /** Dividing a non-negative number by a whole divisor and flooring only depends on its integer part. */
  lemma FloorDiv(s: real, d: nat)
    requires s >= 0.0 && d > 0
    ensures (s / d as real).Floor == s.Floor / d
  {
    var n := s.Floor;
    var q := n / d;
    assert q * d <= n < q * d + d;
    assert (q * d) as real == q as real * d as real;
    assert (q * d + d) as real == (q + 1) as real * d as real;
    assert (q + 1) as real * d as real <= s ==> false;
    DivBounds(s, d as real, q as real, (q + 1) as real);
  }

  /** For a non-negative dividend the remainder is the integer part's remainder plus the fraction. */
  lemma JsRemNonneg(s: real, d: nat)
    requires s >= 0.0 && d > 0
    ensures JsRem(s, d as real) == (s.Floor % d) as real + (s - s.Floor as real)
  {
    FloorDiv(s, d);
    var n := s.Floor;
    var dd := d as real;
    var q := s / dd;
    assert dd * q == s;
    assert JsRem(s, dd) == dd * q - dd * (n / d) as real;
    assert n == (n / d) * d + n % d;
    assert n as real == dd * (n / d) as real + (n % d) as real;
  }

  /** The three clock fields of `formatDuration`, computed as the page does. */
  datatype Clock = Clock(hours: int, minutes: int, seconds: int)

  function DurationParts(seconds: real): Clock
  {
    Clock((seconds / 3600.0).Floor, (JsRem(seconds, 3600.0) / 60.0).Floor, JsRem(seconds, 60.0).Floor)
  }

  /** Whole hours, minutes and seconds of a whole number of seconds add back up to it. */
  lemma Recompose(n: nat)
    ensures var m := (n % 3600) / 60;
            0 <= m < 60 && (n / 3600) * 3600 + m * 60 + n % 60 == n
  {
    var h := n / 3600;
    var a := n % 3600;
    var m := a / 60;
    assert n == h * 3600 + a && a == m * 60 + a % 60;
    assert n == (h * 60 + m) * 60 + a % 60;
    assert n % 60 == a % 60;
  }

  /**
   * For a non-negative duration the fields are the floored duration split
   * into hours, minutes below 60 and seconds below 60, and they add back up
   * to it.
   */
  lemma PartsOfNonneg(seconds: real)
    requires seconds >= 0.0
    ensures var n := seconds.Floor;
            var c := DurationParts(seconds);
            c == Clock(n / 3600, (n % 3600) / 60, n % 60) &&
            c.hours >= 0 && 0 <= c.minutes < 60 && 0 <= c.seconds < 60 &&
            c.hours * 3600 + c.minutes * 60 + c.seconds == n
  {
    var n := seconds.Floor;
    var f := seconds - n as real;
    FloorDiv(seconds, 3600);
    JsRemNonneg(seconds, 3600);
    var below := JsRem(seconds, 3600.0);
    assert below == (n % 3600) as real + f;
    assert below.Floor == n % 3600;
    FloorDiv(below, 60);
    JsRemNonneg(seconds, 60);
    assert JsRem(seconds, 60.0) == (n % 60) as real + f;
    Recompose(n);
  }

  /** `s.padStart(width, ch)` with a one-character pad: pads on the left up to `width`. */
  function PadStart(s: string, width: nat, ch: char): (r: string)
    ensures |r| == if |s| >= width then |s| else width
    ensures s <= r[|r| - |s|..] && forall k :: 0 <= k < |r| - |s| ==> r[k] == ch
  {
    if |s| >= width then s else Repeat(ch, width - |s|) + s
  }

  /** A minute or second field: the number padded to two places with '0'. */
  function Pad2(n: int): string
  {
    PadStart(IntToString(n), 2, '0')
  }

  /** The text of the clock fields: "h:mm:ss" when there is at least one hour, "m:ss" otherwise. */
  function ClockText(c: Clock): string
  {
    if c.hours > 0 then IntToString(c.hours) + ":" + Pad2(c.minutes) + ":" + Pad2(c.seconds)
    else IntToString(c.minutes) + ":" + Pad2(c.seconds)
  }

  /** `formatDuration`. */
  function FormatDuration(seconds: real): string
  {
    ClockText(DurationParts(seconds))
  }

  /** The fields of the clock text, in order. */
  function ClockFields(c: Clock): seq<string>
  {
    if c.hours > 0 then [IntToString(c.hours), Pad2(c.minutes), Pad2(c.seconds)]
    else [IntToString(c.minutes), Pad2(c.seconds)]
  }

  /** Reading "m:ss" or "h:mm:ss" fields of decimal numbers back as a number of seconds. */
  function ParseFields(parts: seq<string>): Option<int>
  {
    if |parts| == 2 && ParseInt(parts[0]).Some? && ParseInt(parts[1]).Some? then
      Some(ParseInt(parts[0]).value * 60 + ParseInt(parts[1]).value)
    else if |parts| == 3 && ParseInt(parts[0]).Some? && ParseInt(parts[1]).Some? && ParseInt(parts[2]).Some? then
      Some(ParseInt(parts[0]).value * 3600 + ParseInt(parts[1]).value * 60 + ParseInt(parts[2]).value)
    else None
  }

  /** Reading a clock text back as a number of seconds. */
  function ParseDuration(text: string): Option<int>
  {
    ParseFields(Split(text, ':'))
  }

  /** A field below 100 pads to exactly two digits that read back as the field. */
  lemma Pad2Digits(n: nat)
    requires n < 100
    ensures |Pad2(n)| == 2 && AllDigits(Pad2(n)) && ParseInt(Pad2(n)) == Some(n)
  {
    var p := Pad2(n);
    if n < 10 {
      assert p == ['0', DigitChar(n)];
      assert p[..1] == "0" && p[..1][..0] == "";
      assert DigitsValue(p[..1]) == 0;
      assert DigitValue(p[1]) == n;
      assert DigitsValue(p) == n;
    } else {
      assert NatToString(n) == NatToString(n / 10) + [DigitChar(n % 10)];
      assert p == NatToString(n);
      DigitsValueOfNat(n);
    }
  }

  lemma DigitsHaveNoColon(s: string)
    requires AllDigits(s)
    ensures ':' !in s
  {
  }

  /** Two colon-free fields joined by ':' split back into those fields. */
  lemma TwoFields(a: string, b: string)
    requires ':' !in a && ':' !in b
    ensures Split(a + ":" + b, ':') == [a, b]
  {
    assert a + ":" + b == a + [':'] + b;
    SplitConcat(a, b, ':');
  }

  /** Three colon-free fields joined by ':' split back into those fields. */
  lemma ThreeFields(a: string, b: string, c: string)
    requires ':' !in a && ':' !in b && ':' !in c
    ensures Split(a + ":" + b + ":" + c, ':') == [a, b, c]
  {
    assert a + ":" + b + ":" + c == a + [':'] + (b + ":" + c);
    SplitConcat(a, b + ":" + c, ':');
    TwoFields(b, c);
  }

  /** Clock fields in range are colon-free, later fields have two digits, and they read back as their seconds. */
  lemma ClockFieldsReadBack(c: Clock, n: int)
    requires c.hours >= 0 && 0 <= c.minutes < 60 && 0 <= c.seconds < 60
    requires c.hours * 3600 + c.minutes * 60 + c.seconds == n
    ensures var f := ClockFields(c);
            (forall k :: 0 <= k < |f| ==> ':' !in f[k]) &&
            (forall k :: 1 <= k < |f| ==> |f[k]| == 2) &&
            ParseFields(f) == Some(n)
  {
    Pad2Digits(c.seconds);
    DigitsHaveNoColon(Pad2(c.seconds));
    if c.hours > 0 {
      Pad2Digits(c.minutes);
      DigitsHaveNoColon(Pad2(c.minutes));
      DigitsHaveNoColon(IntToString(c.hours));
      ParseNatToString(c.hours);
    } else {
      DigitsHaveNoColon(IntToString(c.minutes));
      ParseNatToString(c.minutes);
    }
  }

  /** The clock text splits at ':' into the clock fields. */
  lemma ClockTextSplits(c: Clock)
    requires forall k :: 0 <= k < |ClockFields(c)| ==> ':' !in ClockFields(c)[k]
    ensures Split(ClockText(c), ':') == ClockFields(c)
  {
    var f := ClockFields(c);
    if c.hours > 0 {
      assert ClockText(c) == f[0] + ":" + f[1] + ":" + f[2];
      ThreeFields(f[0], f[1], f[2]);
    } else {
      assert ClockText(c) == f[0] + ":" + f[1];
      TwoFields(f[0], f[1]);
    }
  }

  /**
   * For a non-negative duration the text has two fields below an hour and
   * three from an hour on, every field after the first has two digits, and
   * reading it back gives the whole seconds of the duration.
   */
  lemma FormatDurationRoundTrip(seconds: real)
    requires seconds >= 0.0
    ensures var parts := Split(FormatDuration(seconds), ':');
            |parts| == (if seconds >= 3600.0 then 3 else 2) &&
            (forall k :: 1 <= k < |parts| ==> |parts[k]| == 2)
    ensures ParseDuration(FormatDuration(seconds)) == Some(seconds.Floor)
  {
    PartsOfNonneg(seconds);
    var c := DurationParts(seconds);
    var n := seconds.Floor;
    assert c.hours > 0 <==> n >= 3600;
    assert n >= 3600 <==> seconds >= 3600.0;
    ClockFieldsReadBack(c, n);
    ClockTextSplits(c);
  }

  /** The MIME types `validateVideoFile` accepts. */
  const AllowedTypes: seq<string> := ["video/mp4", "video/webm", "video/ogg", "video/quicktime", "video/x-msvideo"]

  /** The largest accepted file: 2 GiB. */
  const MaxVideoSize: int := 2 * 1024 * 1024 * 1024

  /** A browser file as `validateVideoFile` sees it: its MIME type and size in bytes. */
  datatype VideoFile = VideoFile(mimeType: string, size: int)

  /** `validateVideoFile`. */
  predicate ValidateVideoFile(file: VideoFile)
  {
    file.mimeType in AllowedTypes && file.size <= MaxVideoSize
  }

  /**
   * A file of an accepted type passes up to and including 2 GiB and fails
   * one byte over; a file of any other type fails whatever its size.
   */
  lemma ValidateVideoFileLimits(mimeType: string, size: int)
    ensures mimeType in AllowedTypes ==>
              (ValidateVideoFile(VideoFile(mimeType, size)) <==> size <= 2147483648)
    ensures mimeType !in AllowedTypes ==> !ValidateVideoFile(VideoFile(mimeType, size))
    ensures ValidateVideoFile(VideoFile("video/quicktime", MaxVideoSize))
    ensures !ValidateVideoFile(VideoFile("video/quicktime", MaxVideoSize + 1))
  {
    assert AllowedTypes[3] == "video/quicktime";
  }
}
