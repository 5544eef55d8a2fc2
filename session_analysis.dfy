/**
 * The session summary: averages, peak stress, a stability score derived
 * from the variance of stress and anxiety, and the most frequent primary
 * emotion, all computed from the whole history on demand.
 */
module SessionAnalysis {
  import opened Numeric
  import opened EmotionTypes

  datatype SessionSummary = SessionSummary(
    averageStress: real,
    averageAnxiety: real,
    averageConfidence: real,
    peakStress: real,
    emotionalStability: real,
    dominantEmotion: Category)

  /** The numeric fields of a frame the summary reads. */
  datatype Field = StressField | AnxietyField | ConfidenceField

  function Read(e: EmotionState, f: Field): real
  {
    match f
    case StressField => e.stressLevel
    case AnxietyField => e.anxietyLevel
    case ConfidenceField => e.confidence
  }

  /** `history.map(e => e.<field>)`. */
  function Levels(history: seq<EmotionState>, f: Field): (s: seq<real>)
    ensures |s| == |history|
    ensures forall i :: 0 <= i < |history| ==> s[i] == Read(history[i], f)
  {
    if history == [] then []
    else Levels(history[..|history| - 1], f) + [Read(history[|history| - 1], f)]
  }

  /** The primary emotion of every frame, in order. */
  function Labels(history: seq<EmotionState>): (s: seq<Category>)
    ensures |s| == |history|
    ensures forall i :: 0 <= i < |history| ==> s[i] == history[i].primaryEmotion
  {
    if history == [] then []
    else Labels(history[..|history| - 1]) + [history[|history| - 1].primaryEmotion]
  }

  // ------------------------------------------------------------ statistics

  /** `values.map(v => Math.pow(v - mean, 2))`. */
  function SquareDiffs(values: seq<real>, mean: real): (d: seq<real>)
    ensures |d| == |values|
    ensures forall i :: 0 <= i < |values| ==> d[i] == Square(values[i] - mean)
    ensures forall i :: 0 <= i < |values| ==> d[i] >= 0.0
  {
    if values == [] then []
    else
      var x := values[|values| - 1] - mean;
      SquareSign(x);
      SquareDiffs(values[..|values| - 1], mean) + [Square(x)]
  }

  /** The population variance: the mean squared distance from the mean. */
  function Variance(values: seq<real>): (r: real)
    requires |values| > 0
    ensures r >= 0.0
  {
    var mean := Mean(values);
    var squareDiffs := SquareDiffs(values, mean);
    SumAtLeastTwo(squareDiffs, 0, 0);
    Sum(squareDiffs) / |values| as real
  }

  predicate Constant(values: seq<real>)
  {
    forall i, j :: 0 <= i < |values| && 0 <= j < |values| ==> values[i] == values[j]
  }

  /** The variance is zero exactly when every value is the same. */
  lemma VarianceZeroIffConstant(values: seq<real>)
    requires |values| > 0
    ensures Variance(values) == 0.0 <==> Constant(values)
  {
    if Constant(values) {
      ConstantHasZeroVariance(values);
    }
    if Variance(values) == 0.0 {
      forall i, j | 0 <= i < |values| && 0 <= j < |values|
        ensures values[i] == values[j]
      {
        ZeroVarianceAtMean(values, i);
        ZeroVarianceAtMean(values, j);
      }
    }
  }

  lemma ConstantHasZeroVariance(values: seq<real>)
    requires |values| > 0 && Constant(values)
    ensures Variance(values) == 0.0
  {
    var d := SquareDiffs(values, Mean(values));
    ConstantMean(values);
    assert AllWithin(d, 0.0, 0.0);
    SumWithin(d, 0.0, 0.0);
  }

  /** With zero variance every value sits at the mean. */
  lemma ZeroVarianceAtMean(values: seq<real>, i: nat)
    requires i < |values| && Variance(values) == 0.0
    ensures values[i] == Mean(values)
  {
    var mean := Mean(values);
    var d := SquareDiffs(values, mean);
    assert Sum(d) / |values| as real == 0.0;
    assert Sum(d) == 0.0;
    SumAtLeastTwo(d, i, i);
    SquareSign(values[i] - mean);
  }

  /** The mean of a constant list is that constant. */
  lemma ConstantMean(values: seq<real>)
    requires |values| > 0 && Constant(values)
    ensures Mean(values) == values[0]
  {
    var c := values[0];
    assert AllWithin(values, c, c);
    SumWithin(values, c, c);
  }

  /** `100 - (stressVariance + anxietyVariance) / 2`. */
  function Stability(stressVariance: real, anxietyVariance: real): real
  {
    100.0 - (stressVariance + anxietyVariance) / 2.0
  }

  // -------------------------------------------------------------- labels

  /** How often c occurs. */
  function Count(s: seq<Category>, c: Category): (n: nat)
    ensures n <= |s|
    ensures n == 0 <==> c !in s
  {
    if s == [] then 0
    else Count(s[..|s| - 1], c) + (if s[|s| - 1] == c then 1 else 0)
  }

  /** Where c first occurs. */
  function FirstIndex(s: seq<Category>, c: Category): (i: nat)
    requires c in s
    ensures i < |s| && s[i] == c
    ensures forall k :: 0 <= k < i ==> s[k] != c
  {
    if c in s[..|s| - 1] then FirstIndex(s[..|s| - 1], c) else |s| - 1
  }

  /**
   * The distinct labels in order of first occurrence: the key order of a
   * dictionary filled from the history.
   */
  function Distinct(s: seq<Category>): (d: seq<Category>)
    ensures forall c :: c in d <==> c in s
    ensures forall i, j :: 0 <= i < j < |d| ==> d[i] != d[j]
    ensures forall i, j :: 0 <= i < j < |d| ==> FirstIndex(s, d[i]) < FirstIndex(s, d[j])
  {
    if s == [] then []
    else
      var init := s[..|s| - 1];
      var prev := Distinct(init);
      var x := s[|s| - 1];
      assert forall c :: c in init ==> FirstIndex(s, c) == FirstIndex(init, c);
      if x in prev then prev
      else
        assert forall c :: c in init ==> FirstIndex(s, c) < |s| - 1;
        prev + [x]
  }

  /** Two different labels together occur no more often than there are frames. */
  lemma {:induction false} CountsOfTwo(s: seq<Category>, a: Category, b: Category)
    requires a != b
    ensures Count(s, a) + Count(s, b) <= |s|
  {
    if s != [] {
      CountsOfTwo(s[..|s| - 1], a, b);
    }
  }

  /** The count of each distinct label, as the numbers the reduce compares. */
  function Tallies(keys: seq<Category>, labels: seq<Category>): (t: seq<real>)
    ensures |t| == |keys|
    ensures forall i :: 0 <= i < |keys| ==> t[i] == Count(labels, keys[i]) as real
  {
    if keys == [] then []
    else Tallies(keys[..|keys| - 1], labels) + [Count(labels, keys[|keys| - 1]) as real]
  }

  /**
   * `Object.entries(counts).reduce((a, b) => a[1] > b[1] ? a : b)[0]`: a most
   * frequent label; among equally frequent ones, the one that first
   * occurred latest.
   */
  function DominantEmotion(labels: seq<Category>): (d: Category)
    requires |labels| > 0
    ensures d in labels
    ensures forall c :: Count(labels, c) <= Count(labels, d)
    ensures forall c :: c in labels && Count(labels, c) == Count(labels, d) ==> FirstIndex(labels, c) <= FirstIndex(labels, d)
  {
    var keys := Distinct(labels);
    assert labels[0] in keys;
    var best := LastMaxIndex(Tallies(keys, labels));
    forall c | c in labels
      ensures Count(labels, c) <= Count(labels, keys[best])
      ensures Count(labels, c) == Count(labels, keys[best]) ==> FirstIndex(labels, c) <= FirstIndex(labels, keys[best])
    {
      KeyAgainstBest(labels, keys, best, c);
    }
    keys[best]
  }

  /** How a label fares against the key the reduce keeps. */
  lemma KeyAgainstBest(labels: seq<Category>, keys: seq<Category>, best: nat, c: Category)
    requires keys == Distinct(labels) && |keys| > 0
    requires best == LastMaxIndex(Tallies(keys, labels))
    requires c in labels
    ensures Count(labels, c) <= Count(labels, keys[best])
    ensures Count(labels, c) == Count(labels, keys[best]) ==> FirstIndex(labels, c) <= FirstIndex(labels, keys[best])
  {
    var tallies := Tallies(keys, labels);
    assert c in keys;
    var j :| 0 <= j < |keys| && keys[j] == c;
    assert tallies[j] == Count(labels, c) as real;
    assert tallies[best] == Count(labels, keys[best]) as real;
    assert tallies[j] <= tallies[best];
    if j < best {
      assert FirstIndex(labels, keys[j]) < FirstIndex(labels, keys[best]);
    } else if j > best {
      assert tallies[j] < tallies[best];
    }
  }

  /** A label carried by more than half the frames is the dominant emotion. */
  lemma MajorityIsDominant(labels: seq<Category>, c: Category)
    requires 2 * Count(labels, c) > |labels|
    ensures DominantEmotion(labels) == c
  {
    var d := DominantEmotion(labels);
    if d != c {
      CountsOfTwo(labels, c, d);
    }
  }

  // ------------------------------------------------------------- summary

  /** The summary of an empty session. */
  const EmptySummary := SessionSummary(0.0, 0.0, 0.0, 0.0, 100.0, Neutral)

  /** What the summary of a history is. */
  function Summary(history: seq<EmotionState>): SessionSummary
  {
    if history == [] then EmptySummary
    else
      var stress := Levels(history, StressField);
      var anxiety := Levels(history, AnxietyField);
      SessionSummary(
        Mean(stress),
        Mean(anxiety),
        Mean(Levels(history, ConfidenceField)),
        MaxOf(stress),
        Stability(Variance(stress), Variance(anxiety)),
        DominantEmotion(Labels(history)))
  }

  /** counts and keys hold the tally of seen: one entry per distinct label, in first-seen order. */
  predicate Tallied(counts: map<Category, nat>, keys: seq<Category>, seen: seq<Category>)
  {
    && keys == Distinct(seen)
    && (forall c :: c in counts <==> c in seen)
    && (forall c :: c in counts ==> counts[c] == Count(seen, c))
  }

  /** One more label: its entry goes up by one, or is created at 1 and appended to the keys. */
  lemma TallyStep(counts: map<Category, nat>, keys: seq<Category>, seen: seq<Category>, e: Category)
    requires Tallied(counts, keys, seen)
    ensures e in counts ==> Tallied(counts[e := counts[e] + 1], keys, seen + [e])
    ensures e !in counts ==> Tallied(counts[e := 1], keys + [e], seen + [e])
  {
    var next := seen + [e];
    assert next[..|seen|] == seen;
    forall c
      ensures Count(next, c) == Count(seen, c) + (if c == e then 1 else 0)
    {
    }
    var updated := if e in counts then counts[e := counts[e] + 1] else counts[e := 1];
    var newKeys := if e in counts then keys else keys + [e];
    assert newKeys == Distinct(next);
    forall c
      ensures c in updated <==> c in next
      ensures c in updated ==> updated[c] == Count(next, c)
    {
      assert c in next <==> c in seen || c == e;
    }
    assert Tallied(updated, newKeys, next);
  }

  /** One more frame appends its label to the labels of the prefix. */
  lemma LabelsStep(history: seq<EmotionState>, i: nat)
    requires i < |history|
    ensures Labels(history[..i + 1]) == Labels(history[..i]) + [history[i].primaryEmotion]
  {
    assert history[..i + 1][..i] == history[..i];
  }

  /**
   * The label tally: a dictionary filled in one pass, each frame adding one
   * to its label's entry (created at 1 the first time the label is seen).
   */
  method CountEmotions(history: seq<EmotionState>) returns (counts: map<Category, nat>, keys: seq<Category>)
    ensures Tallied(counts, keys, Labels(history))
  {
    counts := map[];
    keys := [];
    var i := 0;
    while i < |history|
      invariant 0 <= i <= |history|
      invariant Tallied(counts, keys, Labels(history[..i]))
    {
      var e := history[i].primaryEmotion;
      LabelsStep(history, i);
      TallyStep(counts, keys, Labels(history[..i]), e);
      if e in counts {
        counts := counts[e := counts[e] + 1];
      } else {
        counts := counts[e := 1];
        keys := keys + [e];
      }
      i := i + 1;
    }
    assert history[..i] == history;
  }

  /** Computes the summary, tallying labels with a dictionary. */
  method CalculateSessionSummary(history: seq<EmotionState>) returns (r: SessionSummary)
    ensures r == Summary(history)
  {
    if |history| == 0 {
      return EmptySummary;
    }
    var stress := Levels(history, StressField);
    var anxiety := Levels(history, AnxietyField);
    var counts, keys := CountEmotions(history);
    var labels := Labels(history);
    var tallies := seq(|keys|, i requires 0 <= i < |keys| => counts[keys[i]] as real);
    assert tallies == Tallies(keys, labels);
    r := SessionSummary(
      Mean(stress),
      Mean(anxiety),
      Mean(Levels(history, ConfidenceField)),
      MaxOf(stress),
      Stability(Variance(stress), Variance(anxiety)),
      keys[LastMaxIndex(tallies)]);
  }

  // ---------------------------------------------------------- properties

  /** An empty session reports zero averages and peak, full stability and a neutral mood. */
  lemma EmptySessionSummary()
    ensures var s := Summary([]);
      && s.averageStress == 0.0 && s.averageAnxiety == 0.0 && s.averageConfidence == 0.0
      && s.peakStress == 0.0 && s.emotionalStability == 100.0 && s.dominantEmotion == Neutral
  {
  }

  /** Each average is the field's sum over the length, and stays in [0, 100] when every value does. */
  lemma AveragesWithin(history: seq<EmotionState>, f: Field)
    requires |history| > 0
    ensures var s := Summary(history);
      var avg := match f
        case StressField => s.averageStress
        case AnxietyField => s.averageAnxiety
        case ConfidenceField => s.averageConfidence;
      && avg == Sum(Levels(history, f)) / |history| as real
      && (AllWithin(Levels(history, f), 0.0, 100.0) ==> 0.0 <= avg <= 100.0)
  {
    if AllWithin(Levels(history, f), 0.0, 100.0) {
      MeanWithin(Levels(history, f), 0.0, 100.0);
    }
  }

  /** The session's peak stress is the largest stress level of its frames. */
  lemma SummaryPeak(history: seq<EmotionState>)
    requires |history| > 0
    ensures Summary(history).peakStress == MaxOf(Levels(history, StressField))
  {
  }

  /** The peak stress is reached by some frame and no frame exceeds it. */
  lemma PeakStressIsMaximum(history: seq<EmotionState>)
    requires |history| > 0
    ensures forall i :: 0 <= i < |history| ==> history[i].stressLevel <= Summary(history).peakStress
    ensures exists i :: 0 <= i < |history| && history[i].stressLevel == Summary(history).peakStress
  {
    SummaryPeak(history);
    StressMaximum(history);
  }

  /** The largest stress level is reached by some frame and no frame exceeds it. */
  lemma StressMaximum(history: seq<EmotionState>)
    requires |history| > 0
    ensures forall i :: 0 <= i < |history| ==> history[i].stressLevel <= MaxOf(Levels(history, StressField))
    ensures exists i :: 0 <= i < |history| && history[i].stressLevel == MaxOf(Levels(history, StressField))
  {
    var stress := Levels(history, StressField);
    forall i | 0 <= i < |history|
      ensures history[i].stressLevel <= MaxOf(stress)
    {
      assert stress[i] == history[i].stressLevel;
    }
    var k :| 0 <= k < |stress| && stress[k] == MaxOf(stress);
    assert stress[k] == history[k].stressLevel;
  }

  /** Stability never exceeds 100, and reaches it exactly when stress and anxiety are both constant. */
  lemma StabilityAtMostHundred(history: seq<EmotionState>)
    requires |history| > 0
    ensures Summary(history).emotionalStability <= 100.0
    ensures Summary(history).emotionalStability == 100.0
        <==> Constant(Levels(history, StressField)) && Constant(Levels(history, AnxietyField))
  {
    VarianceZeroIffConstant(Levels(history, StressField));
    VarianceZeroIffConstant(Levels(history, AnxietyField));
  }

  /** The dominant emotion occurs, is at least as frequent as every label, and takes a majority when there is one. */
  lemma DominantIsMostFrequent(history: seq<EmotionState>, c: Category)
    requires |history| > 0
    ensures Summary(history).dominantEmotion in Labels(history)
    ensures Count(Labels(history), c) <= Count(Labels(history), Summary(history).dominantEmotion)
    ensures 2 * Count(Labels(history), c) > |history| ==> Summary(history).dominantEmotion == c
  {
    if 2 * Count(Labels(history), c) > |history| {
      MajorityIsDominant(Labels(history), c);
    }
  }

  /** Five calm frames (stress 20, anxiety 10) followed by five tense ones (stress 90, anxiety 80). */
  predicate CalmThenTense(history: seq<EmotionState>)
  {
    && |history| == 10
    && (forall i :: 0 <= i < 5 ==> history[i].stressLevel == 20.0 && history[i].anxietyLevel == 10.0)
    && (forall i :: 5 <= i < 10 ==> history[i].stressLevel == 90.0 && history[i].anxietyLevel == 80.0)
  }

  /**
   * A calm-then-tense session peaks at 90 with an average stress of 55, and
   * a label held by six frames or more is its dominant emotion.
   */
  lemma CalmThenTenseSession(history: seq<EmotionState>, c: Category)
    requires CalmThenTense(history)
    requires Count(Labels(history), c) >= 6
    ensures Summary(history).peakStress == 90.0
    ensures Summary(history).averageStress == 55.0
    ensures Summary(history).dominantEmotion == c
  {
    CalmThenTenseMean(history);
    PeakStressIsMaximum(history);
    MajorityIsDominant(Labels(history), c);
  }

  lemma CalmThenTenseMean(history: seq<EmotionState>)
    requires CalmThenTense(history)
    ensures Mean(Levels(history, StressField)) == 55.0
  {
    var s := Levels(history, StressField);
    var calm := s[..5];
    var tense := s[5..];
    assert s == calm + tense;
    assert AllWithin(calm, 20.0, 20.0) && AllWithin(tense, 90.0, 90.0);
    SumWithin(calm, 20.0, 20.0);
    SumWithin(tense, 90.0, 90.0);
    SumConcat(calm, tense);
  }
}
