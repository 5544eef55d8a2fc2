/**
 * The streaming aggregator: one record per tracked metric (stress, anxiety,
 * confidence), updated frame by frame. Each update looks only at the previous
 * peaks and the new value, keeps the three largest of them in descending
 * order, and recomputes the statistics over that working sample of at most
 * four values.
 */
module EmotionAggregator {
  import opened Wrappers
  import opened Numeric
  import opened EmotionTypes

  /** How many peaks a record keeps. */
  const PeakCount: nat := 3

  datatype AggregatedEmotion = AggregatedEmotion(value: real, confidence: real, peaks: seq<real>, variance: real)

  datatype EmotionAggregates = EmotionAggregates(stress: AggregatedEmotion, anxiety: AggregatedEmotion, confidence: AggregatedEmotion)

  /**
   * The weighted average, the dispersion-based confidence and the variance
   * the update applies to its working sample. The program calls these three
   * helpers without defining them, so the model takes them as given.
   */
  datatype SampleStatistics = SampleStatistics(
    weightedAverage: seq<real> -> real,
    confidence: seq<real> -> real,
    variance: seq<real> -> real)

  /** The three tracked metrics. */
  datatype Metric = StressMetric | AnxietyMetric | ConfidenceMetric

  // ------------------------------------------------------------- ordering

  predicate SortedDescending(s: seq<real>)
  {
    forall i, j :: 0 <= i < j < |s| ==> s[i] >= s[j]
  }

  /** The first k elements, or all of them when there are fewer (`slice(0, k)`). */
  function Take(s: seq<real>, k: nat): (r: seq<real>)
    ensures |r| == if |s| <= k then |s| else k
  {
    if |s| <= k then s else s[..k]
  }

  /**
   * Insert x into a descending list after every element not smaller than it,
   * which is where a stable sort leaves a value that came last.
   */
  function InsertDescending(x: real, s: seq<real>): (r: seq<real>)
    ensures |r| == |s| + 1
    ensures r[0] == if s == [] || x > s[0] then x else s[0]
    ensures multiset(r) == multiset(s) + multiset{x}
  {
    if s == [] then [x]
    else if x > s[0] then [x] + s
    else
      assert s == [s[0]] + s[1..];
      [s[0]] + InsertDescending(x, s[1..])
  }

  /** Insertion keeps a descending list descending. */
  lemma {:induction false} InsertKeepsSorted(x: real, s: seq<real>)
    requires SortedDescending(s)
    ensures SortedDescending(InsertDescending(x, s))
  {
    if s != [] && x <= s[0] {
      var rest := InsertDescending(x, s[1..]);
      InsertKeepsSorted(x, s[1..]);
      var r := [s[0]] + rest;
      forall i, j | 0 <= i < j < |r|
        ensures r[i] >= r[j]
      {
        if i == 0 {
          assert r[j] in multiset(rest);
          assert r[j] in multiset(s[1..]) + multiset{x};
          if r[j] in multiset(s[1..]) {
            var k :| 0 <= k < |s[1..]| && s[1..][k] == r[j];
            assert s[k + 1] == r[j];
          }
        }
      }
    }
  }

  /** `[...s].sort((a, b) => b - a)`: a stable sort into descending order. */
  function SortDescending(s: seq<real>): (r: seq<real>)
    ensures |r| == |s|
    ensures multiset(r) == multiset(s)
    ensures SortedDescending(r)
  {
    if s == [] then []
    else
      var init := s[..|s| - 1];
      assert s == init + [s[|s| - 1]];
      InsertKeepsSorted(s[|s| - 1], SortDescending(init));
      InsertDescending(s[|s| - 1], SortDescending(init))
  }

  /**
   * p holds the k largest values of all, in descending order: as many as
   * there are (up to k), drawn from all, and no value left out exceeds any
   * value kept.
   */
  ghost predicate IsTopK(p: seq<real>, all: seq<real>, k: nat)
  {
    && |p| == (if |all| <= k then |all| else k)
    && SortedDescending(p)
    && multiset(p) <= multiset(all)
    && forall x, i :: x in multiset(all) - multiset(p) && 0 <= i < |p| ==> x <= p[i]
  }

  /** Sorting everything and keeping the first k gives the top k. */
  lemma TakeOfSortedIsTopK(all: seq<real>, k: nat)
    ensures IsTopK(Take(SortDescending(all), k), all, k)
  {
    var s := SortDescending(all);
    var p := Take(s, k);
    SortedPrefix(s, |p|);
    assert p == s[..|p|];
  }

  /** A prefix of a descending list holds values no smaller than any it leaves out. */
  lemma SortedPrefix(s: seq<real>, m: nat)
    requires SortedDescending(s) && m <= |s|
    ensures SortedDescending(s[..m])
    ensures multiset(s[..m]) <= multiset(s)
    ensures forall x, i :: x in multiset(s) - multiset(s[..m]) && 0 <= i < m ==> x <= s[..m][i]
  {
    var p := s[..m];
    var rest := s[m..];
    PrefixRest(s, m);
    forall i, j | 0 <= i < j < m
      ensures p[i] >= p[j]
    {
      assert p[i] == s[i] && p[j] == s[j];
    }
    forall x, i | x in multiset(s) - multiset(p) && 0 <= i < m
      ensures x <= p[i]
    {
      assert x in multiset(rest);
      var j :| 0 <= j < |rest| && rest[j] == x;
      assert rest[j] == s[m + j];
      assert p[i] == s[i];
      assert s[i] >= s[m + j];
    }
  }

  /** What a prefix leaves out of a list is the rest of the list. */
  lemma PrefixRest(s: seq<real>, m: nat)
    requires m <= |s|
    ensures multiset(s[..m]) <= multiset(s)
    ensures multiset(s) - multiset(s[..m]) == multiset(s[m..])
  {
    assert s == s[..m] + s[m..];
  }

  /** Inserting a value no larger than any element appends it. */
  lemma {:induction false} InsertSmallest(x: real, s: seq<real>)
    requires forall i :: 0 <= i < |s| ==> x <= s[i]
    ensures InsertDescending(x, s) == s + [x]
  {
    if s != [] {
      InsertSmallest(x, s[1..]);
      assert [s[0]] + (s[1..] + [x]) == s + [x];
    }
  }

  /** Sorting a non-empty list inserts its last element into the sorted rest. */
  lemma SortStep(s: seq<real>)
    requires |s| > 0
    ensures SortDescending(s) == InsertDescending(s[|s| - 1], SortDescending(s[..|s| - 1]))
  {
  }

  /** In a descending list, dropping the last element keeps it descending, and that element is the smallest. */
  lemma LastOfSorted(init: seq<real>, x: real)
    requires SortedDescending(init + [x])
    ensures SortedDescending(init)
    ensures forall i :: 0 <= i < |init| ==> x <= init[i]
  {
    var s := init + [x];
    forall i | 0 <= i < |init| ensures x <= init[i] {
      assert s[i] == init[i] && s[|init|] == x;
    }
    forall i, j | 0 <= i < j < |init| ensures init[i] >= init[j] {
      assert s[i] == init[i] && s[j] == init[j];
    }
  }

  /** Sorting a list that is already descending leaves it as it is. */
  lemma {:induction false} SortSorted(s: seq<real>)
    requires SortedDescending(s)
    ensures SortDescending(s) == s
  {
    if s != [] {
      var init := s[..|s| - 1];
      var x := s[|s| - 1];
      assert init + [x] == s;
      LastOfSorted(init, x);
      SortSorted(init);
      InsertSmallest(x, init);
      calc {
        SortDescending(s);
        { SortStep(s); }
        InsertDescending(x, SortDescending(init));
        InsertDescending(x, init);
        init + [x];
      }
    }
  }

  /** Cutting to k before inserting changes nothing within the first k. */
  lemma {:induction false} TakeInsertTake(x: real, s: seq<real>, k: nat)
    ensures Take(InsertDescending(x, Take(s, k)), k) == Take(InsertDescending(x, s), k)
  {
    if |s| > k && k != 0 {
      var t := s[..k];
      assert Take(s, k) == t;
      assert t[0] == s[0];
      var a := InsertDescending(x, t);
      var b := InsertDescending(x, s);
      if x > s[0] {
        assert a == [x] + t && b == [x] + s;
        assert a[..k] == b[..k];
      } else {
        assert t[1..] == Take(s[1..], k - 1);
        TakeInsertTake(x, s[1..], k - 1);
        var a' := InsertDescending(x, t[1..]);
        var b' := InsertDescending(x, s[1..]);
        assert a == [s[0]] + a' && b == [s[0]] + b';
        ConsTakeEqual(s[0], a', b', k);
      }
    }
  }

  /** Two lists that agree on their first k - 1 elements still agree on k once the same head is put in front. */
  lemma ConsTakeEqual(h: real, a: seq<real>, b: seq<real>, k: nat)
    requires 0 < k <= |a| && k <= |b|
    requires Take(a, k - 1) == Take(b, k - 1)
    ensures Take([h] + a, k) == Take([h] + b, k)
  {
    assert a[..k - 1] == b[..k - 1];
    assert ([h] + a)[..k] == [h] + a[..k - 1];
    assert ([h] + b)[..k] == [h] + b[..k - 1];
  }

  // -------------------------------------------------------------- updates

  /**
   * The record every metric starts from: nothing seen yet, so the first
   * update computes its statistics over that update's value alone.
   */
  function CreateEmptyAggregate(): (r: AggregatedEmotion)
    ensures r.value == 0.0 && r.confidence == 0.0 && r.variance == 0.0
    ensures forall x :: WorkingSample(r, x) == [x]
  {
    AggregatedEmotion(0.0, 0.0, [], 0.0)
  }

  /** The values the statistics of an update are computed over: the old peaks and the new value. */
  function WorkingSample(current: AggregatedEmotion, newValue: real): seq<real>
  {
    current.peaks + [newValue]
  }

  /**
   * One update: the new peaks are the three largest of the old peaks and the
   * new value, in descending order; the statistics are taken over that same
   * working sample.
   */
  function UpdateAggregate(current: AggregatedEmotion, newValue: real, stats: SampleStatistics): (r: AggregatedEmotion)
    ensures |r.peaks| <= PeakCount
    ensures |r.peaks| == if |current.peaks| + 1 <= PeakCount then |current.peaks| + 1 else PeakCount
    ensures IsTopK(r.peaks, WorkingSample(current, newValue), PeakCount)
    ensures multiset(r.peaks) <= multiset(current.peaks) + multiset{newValue}
    ensures r.value == stats.weightedAverage(WorkingSample(current, newValue))
    ensures r.confidence == stats.confidence(WorkingSample(current, newValue))
    ensures r.variance == stats.variance(WorkingSample(current, newValue))
  {
    var peaks := Take(SortDescending(current.peaks + [newValue]), PeakCount);
    var values := current.peaks + [newValue];
    TakeOfSortedIsTopK(values, PeakCount);
    AggregatedEmotion(stats.weightedAverage(values), stats.confidence(values), peaks, stats.variance(values))
  }

  /** The facial side of a metric: the frame's own stress, anxiety or confidence. */
  function FacialLevel(e: EmotionState, m: Metric): real
  {
    match m
    case StressMetric => e.stressLevel
    case AnxietyMetric => e.anxietyLevel
    case ConfidenceMetric => e.confidence
  }

  /** The audio side of a metric: stress, nervousness or confidence of the reading, 0 without one. */
  function AudioLevel(e: EmotionState, m: Metric): real
  {
    match e.audioAnalysis
    case None => 0.0
    case Some(audio) =>
      match m
      case StressMetric => audio.stress
      case AnxietyMetric => audio.nervousness
      case ConfidenceMetric => audio.confidence
  }

  /**
   * The value a frame contributes to a metric: a mix of the facial and the
   * audio side (0.7/0.3 for stress, 0.6/0.4 for anxiety, 0.5/0.5 for
   * confidence), so it lies between the two; a missing audio reading counts as 0.
   */
  function FrameValue(e: EmotionState, m: Metric): (r: real)
    ensures Min(FacialLevel(e, m), AudioLevel(e, m)) <= r <= Max(FacialLevel(e, m), AudioLevel(e, m))
    ensures FacialLevel(e, m) == AudioLevel(e, m) ==> r == FacialLevel(e, m)
    ensures m != ConfidenceMetric && AudioLevel(e, m) < FacialLevel(e, m) ==> r > (FacialLevel(e, m) + AudioLevel(e, m)) / 2.0
  {
    var audio := e.audioAnalysis;
    match m
    case StressMetric =>
      e.stressLevel * 0.7 + (if audio.Some? then audio.value.stress else 0.0) * 0.3
    case AnxietyMetric =>
      e.anxietyLevel * 0.6 + (if audio.Some? then audio.value.nervousness else 0.0) * 0.4
    case ConfidenceMetric =>
      e.confidence * 0.5 + (if audio.Some? then audio.value.confidence else 0.0) * 0.5
  }

  /** The record of one metric. */
  function Component(a: EmotionAggregates, m: Metric): AggregatedEmotion
  {
    match m
    case StressMetric => a.stress
    case AnxietyMetric => a.anxiety
    case ConfidenceMetric => a.confidence
  }

  function InitialAggregates(): EmotionAggregates
  {
    EmotionAggregates(CreateEmptyAggregate(), CreateEmptyAggregate(), CreateEmptyAggregate())
  }

  /**
   * The history folded frame by frame, from three empty records: every
   * record holds min(n, 3) peaks after n frames, all of them values of its
   * own metric seen so far.
   */
  function AggregateEmotions(history: seq<EmotionState>, stats: SampleStatistics): (r: EmotionAggregates)
    ensures |r.stress.peaks| == PeaksAfter(|history|)
    ensures |r.anxiety.peaks| == PeaksAfter(|history|)
    ensures |r.confidence.peaks| == PeaksAfter(|history|)
  {
    if history == [] then InitialAggregates()
    else
      var acc := AggregateEmotions(history[..|history| - 1], stats);
      var e := history[|history| - 1];
      var r := EmotionAggregates(
        UpdateAggregate(acc.stress, FrameValue(e, StressMetric), stats),
        UpdateAggregate(acc.anxiety, FrameValue(e, AnxietyMetric), stats),
        UpdateAggregate(acc.confidence, FrameValue(e, ConfidenceMetric), stats));
      var n := |history| - 1;
      PeakCountStep(acc.stress, FrameValue(e, StressMetric), stats, n);
      PeakCountStep(acc.anxiety, FrameValue(e, AnxietyMetric), stats, n);
      PeakCountStep(acc.confidence, FrameValue(e, ConfidenceMetric), stats, n);
      r
  }

  /** How many peaks a record holds after n frames: min(n, 3). */
  function PeaksAfter(n: nat): nat
  {
    if n <= PeakCount then n else PeakCount
  }

  /** One update takes a record from the peak count after n frames to the count after n + 1. */
  lemma PeakCountStep(current: AggregatedEmotion, v: real, stats: SampleStatistics, n: nat)
    requires |current.peaks| == PeaksAfter(n)
    ensures |UpdateAggregate(current, v, stats).peaks| == PeaksAfter(n + 1)
  {
  }

  /** The per-frame values of one metric over a history. */
  function FrameValues(history: seq<EmotionState>, m: Metric): (vs: seq<real>)
    ensures |vs| == |history|
    ensures forall i :: 0 <= i < |history| ==> vs[i] == FrameValue(history[i], m)
  {
    if history == [] then []
    else FrameValues(history[..|history| - 1], m) + [FrameValue(history[|history| - 1], m)]
  }

  // ------------------------------------------------------------ properties

  /** An empty history yields three records with value, confidence and variance 0 and no peaks. */
  lemma EmptyHistory(stats: SampleStatistics, m: Metric)
    ensures var a := Component(AggregateEmotions([], stats), m);
      a.value == 0.0 && a.confidence == 0.0 && a.peaks == [] && a.variance == 0.0
  {
  }

  /** Each record of the fold is updated by its own metric's frame value. */
  lemma ComponentStep(history: seq<EmotionState>, stats: SampleStatistics, m: Metric)
    requires |history| > 0
    ensures Component(AggregateEmotions(history, stats), m)
         == UpdateAggregate(Component(AggregateEmotions(history[..|history| - 1], stats), m),
                            FrameValue(history[|history| - 1], m), stats)
  {
    var acc := AggregateEmotions(history[..|history| - 1], stats);
    var e := history[|history| - 1];
    assert AggregateEmotions(history, stats) == EmotionAggregates(
      UpdateAggregate(acc.stress, FrameValue(e, StressMetric), stats),
      UpdateAggregate(acc.anxiety, FrameValue(e, AnxietyMetric), stats),
      UpdateAggregate(acc.confidence, FrameValue(e, ConfidenceMetric), stats));
  }

  /** Keeping only the top three before adding a value loses nothing of the top three after it. */
  lemma PeaksStep(before: seq<real>, v: real)
    ensures Take(SortDescending(Take(SortDescending(before), PeakCount) + [v]), PeakCount)
         == Take(SortDescending(before + [v]), PeakCount)
  {
    var p := Take(SortDescending(before), PeakCount);
    SortedPrefix(SortDescending(before), |p|);
    assert p == SortDescending(before)[..|p|];
    SortSorted(p);
    assert (p + [v])[..|p|] == p;
    assert (before + [v])[..|before|] == before;
    TakeInsertTake(v, SortDescending(before), PeakCount);
  }

  /** The fold invariant: every record's peaks are the sorted top three of all values folded so far. */
  lemma {:induction false} PeaksAreTopThree(history: seq<EmotionState>, stats: SampleStatistics, m: Metric)
    ensures Component(AggregateEmotions(history, stats), m).peaks == Take(SortDescending(FrameValues(history, m)), PeakCount)
    ensures IsTopK(Component(AggregateEmotions(history, stats), m).peaks, FrameValues(history, m), PeakCount)
  {
    var all := FrameValues(history, m);
    if history != [] {
      var init := history[..|history| - 1];
      var v := FrameValue(history[|history| - 1], m);
      PeaksAreTopThree(init, stats, m);
      ComponentStep(history, stats, m);
      PeaksStep(FrameValues(init, m), v);
    }
    TakeOfSortedIsTopK(all, PeakCount);
  }

  /**
   * The statistics of a record after a frame are computed over the previous
   * peaks and the frame's value: at most four values, all of them seen, and
   * not the whole history once it is longer than four frames.
   */
  lemma WorkingSampleIsBounded(history: seq<EmotionState>, stats: SampleStatistics, m: Metric)
    requires |history| > 0
    ensures var before := Component(AggregateEmotions(history[..|history| - 1], stats), m);
      var sample := WorkingSample(before, FrameValue(history[|history| - 1], m));
      && Component(AggregateEmotions(history, stats), m).value == stats.weightedAverage(sample)
      && Component(AggregateEmotions(history, stats), m).confidence == stats.confidence(sample)
      && Component(AggregateEmotions(history, stats), m).variance == stats.variance(sample)
      && |sample| <= PeakCount + 1
      && multiset(sample) <= multiset(FrameValues(history, m))
  {
    var init := history[..|history| - 1];
    var v := FrameValue(history[|history| - 1], m);
    var before := Component(AggregateEmotions(init, stats), m);
    PeaksFromHistory(init, stats, m);
    ComponentStep(history, stats, m);
    SampleDrawn(before.peaks, FrameValues(init, m), v);
  }

  /** The peaks of a record are values of its metric from the history. */
  lemma PeaksFromHistory(history: seq<EmotionState>, stats: SampleStatistics, m: Metric)
    ensures multiset(Component(AggregateEmotions(history, stats), m).peaks) <= multiset(FrameValues(history, m))
    ensures |Component(AggregateEmotions(history, stats), m).peaks| <= PeakCount
  {
    PeaksAreTopThree(history, stats, m);
  }

  /** Peaks drawn from some values, plus one more value, are drawn from those values plus it. */
  lemma SampleDrawn(peaks: seq<real>, values: seq<real>, v: real)
    requires multiset(peaks) <= multiset(values)
    ensures multiset(peaks + [v]) <= multiset(values + [v])
  {
    assert multiset(peaks + [v]) == multiset(peaks) + multiset{v};
    assert multiset(values + [v]) == multiset(values) + multiset{v};
  }
}
