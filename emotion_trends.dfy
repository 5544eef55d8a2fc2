/**
 * The trend analyser: a direction read from the two most recent frames of a
 * short window, and an intensity scalar read from the aggregated peaks.
 */
module EmotionTrends {
  import opened Numeric
  import opened EmotionTypes
  import opened EmotionAggregator

  datatype Direction = Increasing | Decreasing | Stable

  /** The trend record, without the label and description whose helpers the program does not define. */
  datatype TrendReport = TrendReport(direction: Direction, intensity: real)

  /** How many recent frames the analyser looks at. */
  const TrendWindow: nat := 5

  /** A change smaller than this in both metrics counts as no change. */
  const StableBand: real := 5.0

  /** `history.slice(-n)`: the last n entries, or all of them when there are fewer. */
  function LastN(history: seq<EmotionState>, n: nat): (r: seq<EmotionState>)
    ensures |r| == if |history| <= n then |history| else n
    ensures forall i :: 0 <= i < |r| ==> r[i] == history[|history| - |r| + i]
  {
    if |history| <= n then history else history[|history| - n..]
  }

  /** Change in stress between the last two frames. */
  function StressDelta(recent: seq<EmotionState>): real
    requires |recent| >= 2
  {
    recent[|recent| - 1].stressLevel - recent[|recent| - 2].stressLevel
  }

  /** Change in anxiety between the last two frames. */
  function AnxietyDelta(recent: seq<EmotionState>): real
    requires |recent| >= 2
  {
    recent[|recent| - 1].anxietyLevel - recent[|recent| - 2].anxietyLevel
  }

  /**
   * The direction of the two most recent frames: stable with fewer than two
   * frames or when both changes are inside the band, otherwise increasing
   * exactly when the mean change is positive.
   */
  function TrendDirection(recent: seq<EmotionState>): (r: Direction)
    ensures |recent| < 2 ==> r == Stable
    ensures r == Increasing ==> StressDelta(recent) + AnxietyDelta(recent) > 0.0
    ensures r == Decreasing ==> StressDelta(recent) + AnxietyDelta(recent) <= 0.0
    ensures r != Stable ==> StableBand <= Abs(StressDelta(recent)) || StableBand <= Abs(AnxietyDelta(recent))
  {
    if |recent| < 2 then Stable
    else
      var stressDiff := StressDelta(recent);
      var anxietyDiff := AnxietyDelta(recent);
      if Abs(stressDiff) < StableBand && Abs(anxietyDiff) < StableBand then Stable
      else if (stressDiff + anxietyDiff) / 2.0 > 0.0 then Increasing
      else Decreasing
  }

  /** Only the last two frames matter: the window and everything before them do not. */
  lemma DirectionOfLastTwo(history: seq<EmotionState>)
    requires |history| >= 2
    ensures TrendDirection(history) == TrendDirection(history[|history| - 2..])
  {
  }

  /** Cutting the history to the five-frame window keeps its direction. */
  lemma WindowKeepsDirection(history: seq<EmotionState>)
    ensures TrendDirection(LastN(history, TrendWindow)) == TrendDirection(history)
  {
    var w := LastN(history, TrendWindow);
    if |history| >= 2 {
      assert w[|w| - 1] == history[|history| - 1];
      assert w[|w| - 2] == history[|history| - 2];
    }
  }

  /** A direction is never stable once either metric moves by the band or more. */
  lemma LargeChangeIsNotStable(recent: seq<EmotionState>)
    requires |recent| >= 2
    requires StableBand <= Abs(StressDelta(recent)) || StableBand <= Abs(AnxietyDelta(recent))
    ensures TrendDirection(recent) != Stable
    ensures TrendDirection(recent) == Increasing <==> StressDelta(recent) + AnxietyDelta(recent) > 0.0
  {
  }

  /** Swapping the two most recent frames turns an increase into a decrease. */
  lemma SwapReversesIncrease(a: EmotionState, b: EmotionState)
    ensures TrendDirection([a, b]) == Increasing ==> TrendDirection([b, a]) == Decreasing
    ensures TrendDirection([a, b]) == Stable <==> TrendDirection([b, a]) == Stable
  {
  }

  /** Opposite changes of equal size in stress and anxiety read as decreasing, not stable. */
  lemma BalancedChangeIsDecreasing(a: EmotionState, b: EmotionState)
    requires b.stressLevel == a.stressLevel + 10.0 && b.anxietyLevel == a.anxietyLevel - 10.0
    ensures TrendDirection([a, b]) == Decreasing
  {
    assert StressDelta([a, b]) == 10.0 && AnxietyDelta([a, b]) == -10.0;
  }

  /** The peaks intensity reads and the average confidence all lie in [0, 100]. */
  predicate InPercentRange(aggregates: EmotionAggregates)
  {
    && AllWithin(aggregates.stress.peaks, 0.0, 100.0)
    && AllWithin(aggregates.anxiety.peaks, 0.0, 100.0)
    && 0.0 <= aggregates.confidence.value <= 100.0
  }

  /**
   * `0.4 * max(stress peaks) + 0.4 * max(anxiety peaks) + 0.2 * (100 - average confidence)`.
   * With an empty peak list JavaScript's maximum is -Infinity, which the model excludes.
   */
  function Intensity(aggregates: EmotionAggregates): (r: real)
    requires |aggregates.stress.peaks| > 0 && |aggregates.anxiety.peaks| > 0
    ensures InPercentRange(aggregates) ==> 0.0 <= r <= 100.0
    ensures forall i :: 0 <= i < |aggregates.stress.peaks| ==>
              r >= aggregates.stress.peaks[i] * 0.4 + MaxOf(aggregates.anxiety.peaks) * 0.4
                   + (100.0 - aggregates.confidence.value) * 0.2
    ensures forall i :: 0 <= i < |aggregates.anxiety.peaks| ==>
              r >= MaxOf(aggregates.stress.peaks) * 0.4 + aggregates.anxiety.peaks[i] * 0.4
                   + (100.0 - aggregates.confidence.value) * 0.2
  {
    var maxStress := MaxOf(aggregates.stress.peaks);
    var maxAnxiety := MaxOf(aggregates.anxiety.peaks);
    var avgConfidence := aggregates.confidence.value;
    maxStress * 0.4 + maxAnxiety * 0.4 + (100.0 - avgConfidence) * 0.2
  }

  /** The largest kept peak is the largest value folded in: the peak set loses no maximum. */
  lemma {:induction false} PeakMaximumIsHistoryMaximum(history: seq<EmotionState>, stats: SampleStatistics, m: Metric)
    requires |history| > 0
    ensures |Component(AggregateEmotions(history, stats), m).peaks| > 0
    ensures MaxOf(Component(AggregateEmotions(history, stats), m).peaks) in FrameValues(history, m)
    ensures forall i :: 0 <= i < |history| ==>
              FrameValue(history[i], m) <= MaxOf(Component(AggregateEmotions(history, stats), m).peaks)
  {
    PeaksAreTopThree(history, stats, m);
    TopMaximumIsMaximum(Component(AggregateEmotions(history, stats), m).peaks, FrameValues(history, m));
  }

  /** The largest of a non-empty top-three selection is the largest of everything it was drawn from. */
  lemma TopMaximumIsMaximum(p: seq<real>, all: seq<real>)
    requires |all| > 0 && IsTopK(p, all, PeakCount)
    ensures |p| > 0
    ensures MaxOf(p) in all
    ensures forall i :: 0 <= i < |all| ==> all[i] <= MaxOf(p)
  {
    var top := MaxOf(p);
    assert top in multiset(p);
    forall i | 0 <= i < |all|
      ensures all[i] <= top
    {
      var x := all[i];
      assert x in multiset(all);
      if x in multiset(p) {
        var j :| 0 <= j < |p| && p[j] == x;
      } else {
        assert x in multiset(all) - multiset(p);
        assert x <= p[0];
      }
    }
  }


  /**
   * The report for a history: its direction is that of the whole history
   * (the five-frame window changes nothing), and its intensity is bounded
   * when the aggregates are.
   */
  function AnalyzeEmotionTrends(history: seq<EmotionState>, aggregates: EmotionAggregates): (r: TrendReport)
    requires |aggregates.stress.peaks| > 0 && |aggregates.anxiety.peaks| > 0
    ensures r.direction == TrendDirection(history)
    ensures r.intensity == Intensity(aggregates)
    ensures InPercentRange(aggregates) ==> 0.0 <= r.intensity <= 100.0
  {
    var recentEmotions := LastN(history, TrendWindow);
    WindowKeepsDirection(history);
    TrendReport(TrendDirection(recentEmotions), Intensity(aggregates))
  }
}
