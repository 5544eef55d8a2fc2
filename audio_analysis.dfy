/**
 * The audio side: a magnitude spectrum (decibels per frequency bin) is read
 * into a fixed buffer, reduced to three normalised bands, turned into four
 * emotional indicators, and smoothed against the previous reading. Pitch,
 * volume and speech rate are read from the same buffer on every call.
 */
module AudioAnalysis {
  import opened Wrappers
  import opened Numeric
  import opened EmotionTypes

  /** The analyser's transform size; the buffer holds half as many bins. */
  const FftSize: nat := 2048
  const FrequencyBinCount: nat := FftSize / 2

  /** Weight of the new raw value when smoothing against the previous reading. */
  const SmoothingFactor: real := 0.3

  // ------------------------------------------------------------- spectrum

  /** `Math.min(Math.max((freq + 140) / 60, 0), 1)`: a decibel level mapped onto [0, 1]. */
  function NormalizeFreq(freq: real): (r: real)
    ensures 0.0 <= r <= 1.0
    ensures freq <= -140.0 ==> r == 0.0
    ensures -80.0 <= freq ==> r == 1.0
    ensures -140.0 <= freq <= -80.0 ==> r == (freq + 140.0) / 60.0
  {
    Min(Max((freq + 140.0) / 60.0, 0.0), 1.0)
  }

  /** A louder band never normalises lower. */
  lemma NormalizeFreqMonotone(a: real, b: real)
    requires a <= b
    ensures NormalizeFreq(a) <= NormalizeFreq(b)
  {
  }

  /** The three bands, each normalised: bins 0..9, 10..29 and 30..49. */
  datatype Bands = Bands(low: real, mid: real, high: real)
  {
    predicate InUnitRange()
    {
      0.0 <= low <= 1.0 && 0.0 <= mid <= 1.0 && 0.0 <= high <= 1.0
    }
  }

  /**
   * The mean level of bins [from, to). The program divides by a constant
   * (10 or 20), which is the width of the band, so this is the ordinary mean.
   */
  function BandMean(buffer: seq<real>, from: nat, to: nat): real
    requires from < to <= |buffer|
  {
    Mean(buffer[from..to])
  }

  function NormalizedBands(buffer: seq<real>): (b: Bands)
    requires |buffer| >= 50
    ensures b.InUnitRange()
    ensures b.low == NormalizeFreq(BandMean(buffer, 0, 10))
    ensures b.mid == NormalizeFreq(BandMean(buffer, 10, 30))
    ensures b.high == NormalizeFreq(BandMean(buffer, 30, 50))
  {
    Bands(
      NormalizeFreq(Sum(buffer[0..10]) / 10.0),
      NormalizeFreq(Sum(buffer[10..30]) / 20.0),
      NormalizeFreq(Sum(buffer[30..50]) / 20.0))
  }

  /** A band whose bins all lie between two levels has its mean between them too. */
  lemma BandMeanWithin(buffer: seq<real>, from: nat, to: nat, lo: real, hi: real)
    requires from < to <= |buffer|
    requires forall i :: from <= i < to ==> lo <= buffer[i] <= hi
    ensures lo <= BandMean(buffer, from, to) <= hi
  {
    assert AllWithin(buffer[from..to], lo, hi);
    MeanWithin(buffer[from..to], lo, hi);
  }


  /** The four indicators before smoothing. */
  datatype Indicators = Indicators(stress: real, confidence: real, excitement: real, nervousness: real)
  {
    predicate InPercentRange()
    {
      && 0.0 <= stress <= 100.0 && 0.0 <= confidence <= 100.0
      && 0.0 <= excitement <= 100.0 && 0.0 <= nervousness <= 100.0
    }
  }

  /**
   * Stress and excitement lean on the high band, nervousness on the mid
   * band, and confidence falls as the low and mid bands rise. Each is a
   * convex mix of bands scaled to [0, 100].
   */
  function RawIndicators(b: Bands): (r: Indicators)
    requires b.InUnitRange()
    ensures r.InPercentRange()
    ensures b.mid == 0.0 && b.high == 0.0 ==> r.stress == 0.0 && r.excitement == 0.0 && r.nervousness == 0.0
  {
    Indicators(
      (b.high * 0.6 + b.mid * 0.4) * 100.0,
      (1.0 - (b.low * 0.3 + b.mid * 0.7)) * 100.0,
      (b.high * 0.7 + b.mid * 0.3) * 100.0,
      (b.mid * 0.6 + b.high * 0.4) * 100.0)
  }

  /** Louder bands never lower stress, excitement or nervousness, and never raise confidence. */
  lemma IndicatorsMonotone(b: Bands, b': Bands)
    requires b.InUnitRange() && b'.InUnitRange()
    requires b.low <= b'.low && b.mid <= b'.mid && b.high <= b'.high
    ensures RawIndicators(b).stress <= RawIndicators(b').stress
    ensures RawIndicators(b).excitement <= RawIndicators(b').excitement
    ensures RawIndicators(b).nervousness <= RawIndicators(b').nervousness
    ensures RawIndicators(b).confidence >= RawIndicators(b').confidence
  {
  }

  // ------------------------------------------------------------ smoothing

  /** `raw * 0.3 + previous * 0.7`. */
  function Smooth(raw: real, previous: real): (r: real)
    ensures Min(raw, previous) <= r <= Max(raw, previous)
    ensures r - raw == (1.0 - SmoothingFactor) * (previous - raw)
  {
    raw * SmoothingFactor + previous * (1.0 - SmoothingFactor)
  }

  /** b to the n-th power. */
  function Power(b: real, n: nat): real
  {
    if n == 0 then 1.0 else b * Power(b, n - 1)
  }

  /** The value after smoothing n times against the same raw value. */
  function SmoothRepeatedly(previous: real, raw: real, n: nat): real
  {
    if n == 0 then previous else Smooth(raw, SmoothRepeatedly(previous, raw, n - 1))
  }

  /** With a constant raw value, the distance to it shrinks by 0.7 on each call. */
  lemma {:induction false} SmoothingConverges(previous: real, raw: real, n: nat)
    ensures SmoothRepeatedly(previous, raw, n) - raw == Power(1.0 - SmoothingFactor, n) * (previous - raw)
  {
    if n > 0 {
      SmoothingConverges(previous, raw, n - 1);
      var before := SmoothRepeatedly(previous, raw, n - 1);
      assert Smooth(raw, before) - raw == 0.7 * (before - raw);
      assert 0.7 * (Power(0.7, n - 1) * (previous - raw)) == (0.7 * Power(0.7, n - 1)) * (previous - raw);
    }
  }

  // -------------------------------------------------- pitch, volume, rate

  /** `buffer.map(Math.abs)`. */
  function AbsValues(buffer: seq<real>): (a: seq<real>)
    ensures |a| == |buffer|
    ensures forall i :: 0 <= i < |buffer| ==> a[i] == Abs(buffer[i]) && a[i] >= 0.0
  {
    if buffer == [] then [] else AbsValues(buffer[..|buffer| - 1]) + [Abs(buffer[|buffer| - 1])]
  }

  /** `(sum of |v| / length + 140) / 280 * 100`: never below 50, and not clamped above. */
  function Pitch(buffer: seq<real>): (r: real)
    requires |buffer| > 0
    ensures r >= 50.0
  {
    var sum := Sum(AbsValues(buffer));
    SumAtLeastTwo(AbsValues(buffer), 0, 0);
    var mean := sum / |buffer| as real;
    QuotientNonNegative(sum, |buffer| as real);
    (mean + 140.0) / 280.0 * 100.0
  }

  /** A non-negative total over a positive count gives a non-negative mean. */
  lemma QuotientNonNegative(a: real, n: real)
    requires 0.0 <= a && 0.0 < n
    ensures 0.0 <= a / n
  {
  }

  /** `buffer.map(v => Math.pow(v + 140, 2))`. */
  function ShiftedSquares(buffer: seq<real>): (a: seq<real>)
    ensures |a| == |buffer|
    ensures forall i :: 0 <= i < |buffer| ==> a[i] == Square(buffer[i] + 140.0) && a[i] >= 0.0
  {
    if buffer == [] then []
    else
      SquareSign(buffer[|buffer| - 1] + 140.0);
      ShiftedSquares(buffer[..|buffer| - 1]) + [Square(buffer[|buffer| - 1] + 140.0)]
  }

  /** The root mean square of the shifted levels, scaled so that 140 is 100, and capped at 100. */
  function Volume(buffer: seq<real>, sqrt: real -> real): (r: real)
    requires |buffer| > 0
    requires IsSquareRootBound(sqrt)
    ensures 0.0 <= r <= 100.0
  {
    var sum := Sum(ShiftedSquares(buffer));
    SumAtLeastTwo(ShiftedSquares(buffer), 0, 0);
    var meanSquare := sum / |buffer| as real;
    QuotientNonNegative(sum, |buffer| as real);
    var rms := sqrt(meanSquare);
    assert 0.0 <= rms;
    Min((rms / 140.0) * 100.0, 100.0)
  }

  /** Whether the level changes sign class (non-negative against negative) between two bins. */
  predicate SignChange(before: real, after: real)
  {
    (after >= 0.0 && before < 0.0) || (after < 0.0 && before >= 0.0)
  }

  /** Whether bin i differs in sign class from bin i - 1. */
  predicate ChangeAt(buffer: seq<real>, i: int)
  {
    1 <= i < |buffer| && SignChange(buffer[i - 1], buffer[i])
  }

  /** A prefix of the buffer has the changes of the whole buffer that lie inside it. */
  lemma ChangeAtPrefix(buffer: seq<real>, m: nat)
    requires m <= |buffer|
    ensures forall i :: ChangeAt(buffer[..m], i) <==> i < m && ChangeAt(buffer, i)
  {
    forall i
      ensures ChangeAt(buffer[..m], i) <==> i < m && ChangeAt(buffer, i)
    {
      if 1 <= i < m {
        assert buffer[..m][i - 1] == buffer[i - 1] && buffer[..m][i] == buffer[i];
      }
    }
  }

  /** The number of adjacent bins whose sign class differs. */
  function Crossings(buffer: seq<real>): (n: nat)
    ensures |buffer| > 0 ==> n <= |buffer| - 1
    ensures n > 0 <==> exists i :: ChangeAt(buffer, i)
  {
    if |buffer| <= 1 then 0
    else
      var init := buffer[..|buffer| - 1];
      var k := |buffer| - 1;
      ChangeAtPrefix(buffer, k);
      assert (exists i :: ChangeAt(buffer, i)) ==> (exists i :: ChangeAt(init, i)) || ChangeAt(buffer, k);
      Crossings(init) + (if SignChange(buffer[k - 1], buffer[k]) then 1 else 0)
  }

  /** The bins at which the sign class differs from the bin before. */
  function ChangePositions(buffer: seq<real>): set<nat>
  {
    set i: nat | i < |buffer| && ChangeAt(buffer, i)
  }

  /** The loop counts every sign change exactly once. */
  lemma {:induction false} CrossingsCountChanges(buffer: seq<real>)
    ensures Crossings(buffer) == |ChangePositions(buffer)|
  {
    if |buffer| <= 1 {
      assert ChangePositions(buffer) == {};
    } else {
      var init := buffer[..|buffer| - 1];
      var k := |buffer| - 1;
      CrossingsCountChanges(init);
      ChangeAtPrefix(buffer, k);
      assert buffer[..k] == init;
      assert k !in ChangePositions(init);
      assert forall i :: i in ChangePositions(buffer) <==> i in ChangePositions(init) || (i == k && ChangeAt(buffer, k));
      if ChangeAt(buffer, k) {
        assert ChangePositions(buffer) == ChangePositions(init) + {k};
      } else {
        assert ChangePositions(buffer) == ChangePositions(init);
      }
    }
  }

  /** `Math.min(crossings / length * 200, 100)`. */
  function SpeechRate(buffer: seq<real>): (r: real)
    requires |buffer| > 0
    ensures 0.0 <= r <= 100.0
  {
    Min((Crossings(buffer) as real / |buffer| as real) * 200.0, 100.0)
  }

  /** A buffer whose bins all keep one sign class has speech rate 0. */
  lemma OneSignClassHasNoSpeech(buffer: seq<real>)
    requires |buffer| > 0
    requires (forall i :: 0 <= i < |buffer| ==> buffer[i] < 0.0) || (forall i :: 0 <= i < |buffer| ==> buffer[i] >= 0.0)
    ensures SpeechRate(buffer) == 0.0
  {
    forall i
      ensures !ChangeAt(buffer, i)
    {
      if 1 <= i < |buffer| {
        assert buffer[i - 1] < 0.0 <==> buffer[i] < 0.0;
      }
    }
  }

  /** A single sign change makes the speech rate positive. */
  lemma SignChangeIsSpeech(buffer: seq<real>, i: nat)
    requires ChangeAt(buffer, i)
    ensures SpeechRate(buffer) > 0.0
  {
    assert Crossings(buffer) > 0;
    QuotientPositive(Crossings(buffer) as real, |buffer| as real);
  }

  /** A positive count over a positive length is positive. */
  lemma QuotientPositive(a: real, n: real)
    requires 0.0 < a && 0.0 < n
    ensures 0.0 < a / n
  {
  }

  /** Counts sign changes over the buffer in one pass. */
  method CalculateSpeechRate(buffer: array<real>) returns (rate: real)
    requires buffer.Length > 0
    ensures rate == SpeechRate(buffer[..])
    ensures 0.0 <= rate <= 100.0
  {
    var crossings: nat := 0;
    var i := 1;
    while i < buffer.Length
      invariant 1 <= i <= buffer.Length
      invariant crossings == Crossings(buffer[..i])
    {
      assert buffer[..i + 1][..i] == buffer[..i];
      if (buffer[i] >= 0.0 && buffer[i - 1] < 0.0) || (buffer[i] < 0.0 && buffer[i - 1] >= 0.0) {
        crossings := crossings + 1;
      }
      i := i + 1;
    }
    assert buffer[..i] == buffer[..];
    rate := Min((crossings as real / buffer.Length as real) * 200.0, 100.0);
  }

  // -------------------------------------------------------------- reading

  /**
   * One reading from a buffer: the indicators, smoothed against the previous
   * reading when there is one, and pitch, volume and speech rate from the
   * buffer alone.
   */
  function Reading(previous: Option<AudioEmotionData>, buffer: seq<real>, sqrt: real -> real): (r: AudioEmotionData)
    requires |buffer| >= 50
    requires IsSquareRootBound(sqrt)
    ensures var raw := RawIndicators(NormalizedBands(buffer));
      && (previous.None? ==> r.stress == raw.stress && r.confidence == raw.confidence
                             && r.excitement == raw.excitement && r.nervousness == raw.nervousness)
      && (previous.Some? ==> r.stress == Smooth(raw.stress, previous.value.stress)
                             && r.confidence == Smooth(raw.confidence, previous.value.confidence)
                             && r.excitement == Smooth(raw.excitement, previous.value.excitement)
                             && r.nervousness == Smooth(raw.nervousness, previous.value.nervousness))
    ensures r.pitch == Pitch(buffer) && r.volume == Volume(buffer, sqrt) && r.speechRate == SpeechRate(buffer)
  {
    var raw := RawIndicators(NormalizedBands(buffer));
    var pitch := Pitch(buffer);
    var volume := Volume(buffer, sqrt);
    var speechRate := SpeechRate(buffer);
    match previous
    case None =>
      AudioEmotionData(raw.stress, raw.confidence, raw.excitement, raw.nervousness, pitch, volume, speechRate)
    case Some(p) =>
      AudioEmotionData(
        Smooth(raw.stress, p.stress), Smooth(raw.confidence, p.confidence),
        Smooth(raw.excitement, p.excitement), Smooth(raw.nervousness, p.nervousness),
        pitch, volume, speechRate)
  }

  /** The four smoothed indicators and volume and speech rate lie in [0, 100]. */
  predicate InRange(d: AudioEmotionData)
  {
    && 0.0 <= d.stress <= 100.0 && 0.0 <= d.confidence <= 100.0
    && 0.0 <= d.excitement <= 100.0 && 0.0 <= d.nervousness <= 100.0
    && 0.0 <= d.volume <= 100.0 && 0.0 <= d.speechRate <= 100.0
  }

  /** Readings stay in range: raw values are in range and smoothing stays between two in-range values. */
  lemma ReadingInRange(previous: Option<AudioEmotionData>, buffer: seq<real>, sqrt: real -> real)
    requires |buffer| >= 50
    requires IsSquareRootBound(sqrt)
    requires previous.Some? ==> InRange(previous.value)
    ensures InRange(Reading(previous, buffer, sqrt))
    ensures Reading(previous, buffer, sqrt).pitch >= 50.0
  {
  }

  /** Pitch, volume and speech rate do not depend on the previous reading: they are never smoothed. */
  lemma UnsmoothedFields(p: Option<AudioEmotionData>, q: Option<AudioEmotionData>, buffer: seq<real>, sqrt: real -> real)
    requires |buffer| >= 50
    requires IsSquareRootBound(sqrt)
    ensures Reading(p, buffer, sqrt).pitch == Reading(q, buffer, sqrt).pitch
    ensures Reading(p, buffer, sqrt).volume == Reading(q, buffer, sqrt).volume
    ensures Reading(p, buffer, sqrt).speechRate == Reading(q, buffer, sqrt).speechRate
  {
  }

  // ------------------------------------------------------------- analyser

  /**
   * The analyser state: whether an analyser node is connected, the buffer
   * its spectrum is read into, and the previous reading smoothing uses.
   */
  class AudioAnalyzer {
    var connected: bool
    var buffer: array?<real>
    var previous: Option<AudioEmotionData>

    /**
     * A buffer is held exactly while an analyser is connected, with one slot
     * per frequency bin; the previous reading is in range.
     */
    predicate Valid()
      reads this
    {
      && (connected <==> buffer != null)
      && (buffer != null ==> buffer.Length == FrequencyBinCount)
      && (previous.Some? ==> InRange(previous.value))
    }

    /** Nothing connected, no buffer, no previous reading. */
    constructor()
      ensures Valid()
      ensures !connected && buffer == null && previous == None
    {
      connected := false;
      buffer := null;
      previous := None;
    }

    /** Connects an analyser and allocates a fresh buffer; the previous reading is kept. */
    method Start()
      modifies this
      requires Valid()
      ensures Valid()
      ensures connected && buffer != null && fresh(buffer)
      ensures previous == old(previous)
    {
      connected := true;
      buffer := new real[FrequencyBinCount];
    }

    /** Disconnects, drops the buffer, and forgets the previous reading. */
    method Stop()
      modifies this
      ensures Valid()
      ensures !connected && buffer == null && previous == None
    {
      connected := false;
      buffer := null;
      previous := None;
    }

    /**
     * Reads the spectrum into the buffer and returns the reading, which
     * becomes the previous one; without an analyser or a buffer, returns
     * nothing and changes nothing.
     */
    method Analyze(spectrum: seq<real>, sqrt: real -> real) returns (r: Option<AudioEmotionData>)
      requires Valid()
      requires |spectrum| == FrequencyBinCount
      requires IsSquareRootBound(sqrt)
      modifies this, buffer
      ensures Valid()
      ensures connected == old(connected) && buffer == old(buffer)
      ensures !connected || buffer == null ==> r == None && previous == old(previous)
      ensures connected && buffer != null ==>
        && buffer[..] == spectrum
        && r == Some(Reading(old(previous), spectrum, sqrt))
        && previous == r
    {
      if !connected || buffer == null {
        return None;
      }
      var i := 0;
      while i < buffer.Length
        modifies buffer
        invariant 0 <= i <= buffer.Length
        invariant buffer[..i] == spectrum[..i]
      {
        buffer[i] := spectrum[i];
        i := i + 1;
      }
      assert buffer[..] == spectrum;
      var speechRate := CalculateSpeechRate(buffer);
      var reading := Reading(previous, buffer[..], sqrt);
      assert reading.speechRate == speechRate;
      ReadingInRange(previous, buffer[..], sqrt);
      previous := Some(reading);
      r := Some(reading);
    }
  }
}
