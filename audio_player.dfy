/** The pure helpers of the audio player component: the "m:ss" clock,
    the cache-busted URI the player loads, the position the progress bar
    shows, and the position a touch on the bar seeks to. Times and
    positions are milliseconds. */
module AudioPlayer {
  import opened Wrappers
  import opened Text

  // ---------------------------------------------------------------------
  // formatTime

  /** JavaScript `%`: the remainder takes the sign of the dividend. */
  function JsRem(a: int, b: int): (r: int)
    requires b > 0
    ensures a >= 0 ==> r == a % b
    ensures a < 0 ==> -b < r <= 0
    ensures a < 0 ==> r == (if a % b == 0 then 0 else a % b - b)
  {
    if a >= 0 then a % b
    else
      var r := -((-a) % b);
      JsRemNegative(a, b);
      r
  }

  /** For a negative dividend the truncated remainder is the Euclidean one
      shifted down by the divisor, unless it is zero. */
  lemma JsRemNegative(a: int, b: int)
    requires a < 0 && b > 0
    ensures -((-a) % b) == (if a % b == 0 then 0 else a % b - b)
  {
    var q1, r1 := a / b, a % b;
    var q2, r2 := (-a) / b, (-a) % b;
    assert a == q1 * b + r1 && 0 <= r1 < b;
    assert -a == q2 * b + r2 && 0 <= r2 < b;
    var k := q1 + q2;
    assert k * b == -(r1 + r2) by { assert k * b == q1 * b + q2 * b; }
    assert -2 * b < k * b <= 0;
    MulBounds(k, b);
    if k == 0 {
      assert r1 + r2 == 0;
    } else {
      assert k == -1;
      assert r1 + r2 == b;
    }
  }

  /** A multiple of a positive number in (-2b, 0] has factor 0 or -1. */
  lemma MulBounds(k: int, b: int)
    requires b > 0
    ensures -2 * b < k * b <= 0 ==> k == 0 || k == -1
  {
    if k > 0 {
      MulMonotone(1, k, b);
    } else if k < -1 {
      MulMonotone(k, -2, b);
    }
  }

  /** `str.padStart(2, '0')`. */
  function PadStart2(s: string): (r: string)
    ensures |s| >= 2 ==> r == s
    ensures |s| < 2 ==> |r| == 2 && EndsWith(r, s)
    ensures |s| < 2 ==> forall k | 0 <= k < 2 - |s| :: r[k] == '0'
  {
    if |s| >= 2 then s else seq(2 - |s|, _ => '0') + s
  }

  /** formatTime: whole minutes, a colon, and the seconds padded to two
      places. `Math.floor(x / 1000)` and `Math.floor(x / 60)` are Dafny's
      division, which rounds down for a positive divisor. */
  function FormatTime(ms: int): string {
    var totalSec := ms / 1000;
    var m := totalSec / 60;
    var s := JsRem(totalSec, 60);
    IntString(m) + ":" + PadStart2(IntString(s))
  }

  /** Minutes and seconds put back together give the whole seconds. */
  lemma MinutesAndSeconds(ms: int)
    requires ms >= 0
    ensures var totalSec := ms / 1000;
            (totalSec / 60) * 60 + JsRem(totalSec, 60) == totalSec && 0 <= JsRem(totalSec, 60) < 60
  {
  }

  /** A seconds value below 60 renders as exactly two digits that read back
      as that value. */
  lemma TwoDigitSeconds(s: nat)
    requires s < 60
    ensures PadStart2(IntString(s)) == [DigitChar(s / 10), DigitChar(s % 10)]
  {
    if s < 10 {
      assert IntString(s) == [DigitChar(s)];
      assert seq(1, _ => '0') == ['0'];
      assert DigitChar(0) == '0';
    } else {
      assert Decimal(s) == Decimal(s / 10) + [DigitChar(s % 10)];
      assert Decimal(s / 10) == [DigitChar(s / 10)];
    }
  }

  /** For a non-negative time the clock is "m:ss": the minutes as a
      numeral, a colon, then two digits giving a seconds value in 0..59, and
      minutes times 60 plus seconds is the whole number of seconds. */
  lemma FormatTimeShape(ms: int)
    requires ms >= 0
    ensures var r := FormatTime(ms); var m := ms / 1000 / 60; var s := ms / 1000 % 60;
            && r == Decimal(m) + ":" + [DigitChar(s / 10), DigitChar(s % 10)]
            && 0 <= s < 60
            && m * 60 + s == ms / 1000
            && |r| >= 4 && r[|r| - 3] == ':' && IsDigit(r[|r| - 2]) && IsDigit(r[|r| - 1])
            && DigitValue(r[|r| - 2]) * 10 + DigitValue(r[|r| - 1]) == s
  {
    MinutesAndSeconds(ms);
    var s := ms / 1000 % 60;
    TwoDigitSeconds(s);
    var r := FormatTime(ms);
    var m := ms / 1000 / 60;
    assert r == Decimal(m) + ":" + [DigitChar(s / 10), DigitChar(s % 10)];
    assert r[|r| - 2] == DigitChar(s / 10) && r[|r| - 1] == DigitChar(s % 10);
  }

  /** Anything under one second shows as "0:00". */
  lemma FormatTimeUnderASecond(ms: int)
    requires 0 <= ms < 1000
    ensures FormatTime(ms) == "0:00"
  {
    FormatTimeShape(ms);
    assert DigitChar(0) == '0';
    assert Decimal(0) == "0";
  }

  /** The clock reads back: parseInt of the text gives the minutes, and of
      the part after the colon the seconds. */
  lemma FormatTimeReadsBack(ms: int)
    requires ms >= 0
    ensures var r := FormatTime(ms);
            && ParseInt(r) == Num(ms / 1000 / 60)
            && ParseInt(r[|r| - 2..]) == Num(ms / 1000 % 60)
  {
    FormatTimeShape(ms);
    ClockReadsBack(ms / 1000 / 60, ms / 1000 % 60);
  }

  lemma ClockReadsBack(m: nat, s: nat)
    requires s < 60
    ensures var r := Decimal(m) + ":" + [DigitChar(s / 10), DigitChar(s % 10)];
            && ParseInt(r) == Num(m)
            && ParseInt(r[|r| - 2..]) == Num(s)
  {
    var tail := [DigitChar(s / 10), DigitChar(s % 10)];
    var r := Decimal(m) + ":" + tail;
    assert r == IntString(m) + (":" + tail);
    ParseIntString(m, ":" + tail);
    assert r[|r| - 2..] == tail;
    SecondsDigitsValue(s);
  }

  lemma SecondsDigitsValue(s: nat)
    requires s < 60
    ensures ParseInt([DigitChar(s / 10), DigitChar(s % 10)]) == Num(s)
  {
    var t := [DigitChar(s / 10), DigitChar(s % 10)];
    LeadingDigitsStop(t, []);
    assert t + [] == t;
    assert t[..1] == [DigitChar(s / 10)];
    assert DigitsValue(t) == DigitsValue(t[..1]) * 10 + DigitValue(t[1]);
    assert DigitsValue(t[..1]) == DigitsValue(t[..1][..0]) * 10 + DigitValue(t[0]);
    assert TrimStart(t) == t;
  }

  /** A negative time shows JavaScript's signed remainder: -1.5 s renders
      as "-1:-2". */
  lemma FormatTimeNegative()
    ensures FormatTime(-1500) == "-1:-2"
  {
    assert -1500 / 1000 == -2;
    assert -2 / 60 == -1;
    assert JsRem(-2, 60) == -2;
    assert IntString(-1) == "-1" by { assert Decimal(1) == "1"; }
    assert IntString(-2) == "-2" by { assert Decimal(2) == "2"; }
  }

  // ---------------------------------------------------------------------
  // The URI the player loads

  /** The effective URI: nothing without an audio URI, otherwise the URI
      with `v=<stamp>` appended, stamped with the clock reading `stamp`. */
  function EffectiveUri(audioUri: string, stamp: nat): (r: Option<string>)
    ensures audioUri == "" <==> r.None?
    ensures r.Some? ==> r.value == audioUri + (if '?' in audioUri then "&" else "?") + "v=" + Decimal(stamp)
  {
    if audioUri == "" then None else Some(AppendQuery(audioUri, "v=" + Decimal(stamp)))
  }

  /** The stamp is always the last query parameter and the original URI is
      kept whole in front of it. */
  lemma EffectiveUriKeepsUri(audioUri: string, stamp: nat)
    requires audioUri != ""
    ensures var r := EffectiveUri(audioUri, stamp).value;
            StartsWith(r, audioUri) && EndsWith(r, "v=" + Decimal(stamp)) && '?' in r
  {
  }

  // ---------------------------------------------------------------------
  // The progress bar

  /** While seeking, with a seek position set, the bar shows the seek
      position; otherwise the player's. */
  function ActivePosition(seeking: bool, seekPosition: Option<real>, position: real): (r: real)
    ensures seeking && seekPosition.Some? ==> r == seekPosition.value
    ensures !(seeking && seekPosition.Some?) ==> r == position
  {
    if seeking && seekPosition.Some? then seekPosition.value else position
  }

  /** The filled share of the bar, in percent. */
  function ProgressPct(active: real, duration: real): (r: real)
    ensures duration <= 0.0 ==> r == 0.0
    ensures duration > 0.0 ==> r * duration == active * 100.0
  {
    if duration > 0.0 then (active / duration) * 100.0 else 0.0
  }

  /** A position inside the track fills between nothing and all of the bar. */
  lemma ProgressPctInRange(active: real, duration: real)
    requires duration > 0.0 && 0.0 <= active <= duration
    ensures 0.0 <= ProgressPct(active, duration) <= 100.0
  {
    RatioInUnit(active, duration);
  }

  lemma RatioInUnit(a: real, b: real)
    requires b > 0.0 && 0.0 <= a <= b
    ensures 0.0 <= a / b <= 1.0
  {
    assert a / b * b == a;
  }

  /** What a touch on the bar does: nothing without a measured bar or a
      positive duration; otherwise a seek position, which for a zero-width
      bar is 0/0, that is NaN. */
  datatype SeekResult = NoSeek | SeekTo(position: real) | SeekNaN

  function Clamp(lo: real, hi: real, x: real): real {
    if x < hi then (if x > lo then x else lo) else (if hi > lo then hi else lo)
  }

  /** handleSeek: the touch offset clamped to [0, width], as a share of the
      width, times the duration. */
  function SeekPosition(barMeasured: bool, duration: real, width: real, touchX: real): (r: SeekResult)
    ensures !barMeasured || duration <= 0.0 ==> r == NoSeek
    ensures barMeasured && duration > 0.0 && width == 0.0 ==> r == SeekNaN
    ensures barMeasured && duration > 0.0 && width > 0.0 ==> r == SeekTo(Clamp(0.0, width, touchX) / width * duration)
    ensures barMeasured && duration > 0.0 && width < 0.0 ==> r == SeekTo(0.0)
    ensures r.SeekTo? ==> 0.0 <= r.position <= duration
  {
    if !barMeasured || duration <= 0.0 then NoSeek
    else
      var clamped := Clamp(0.0, width, touchX);
      if width == 0.0 then SeekNaN
      else
        var pos := clamped / width * duration;
        assert pos == Clamp(0.0, width, touchX) / width * duration;
        assert 0.0 <= pos <= duration by { SeekRatioBound(clamped, width, duration); }
        SeekTo(pos)
  }

  lemma SeekRatioBound(clamped: real, width: real, duration: real)
    requires width != 0.0 && duration > 0.0
    requires 0.0 <= clamped && (width > 0.0 ==> clamped <= width) && (width < 0.0 ==> clamped == 0.0)
    ensures 0.0 <= clamped / width * duration <= duration
  {
    if width > 0.0 {
      RatioInUnit(clamped, width);
      var q := clamped / width;
      assert q * duration <= 1.0 * duration;
    }
  }

  /** The touch offset is clamped into [0, width] when the bar has a width. */
  lemma ClampBounds(width: real, touchX: real)
    requires width >= 0.0
    ensures 0.0 <= Clamp(0.0, width, touchX) <= width
    ensures 0.0 <= touchX <= width ==> Clamp(0.0, width, touchX) == touchX
  {
  }

  /** A touch anywhere on a bar with width seeks to the matching share of
      the track: its left end to 0, its right end (or beyond) to the
      duration. */
  lemma SeekEnds(duration: real, width: real, touchX: real)
    requires duration > 0.0 && width > 0.0
    ensures touchX <= 0.0 ==> SeekPosition(true, duration, width, touchX) == SeekTo(0.0)
    ensures touchX >= width ==> SeekPosition(true, duration, width, touchX) == SeekTo(duration)
  {
    if touchX >= width {
      assert Clamp(0.0, width, touchX) == width;
      assert width / width == 1.0;
    }
  }
}
