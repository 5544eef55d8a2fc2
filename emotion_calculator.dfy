/**
 * The facial scorer: stress and anxiety as weighted sums of the facial
 * probabilities, the primary emotion with a dominance-based confidence, the
 * first-match emotional-trend table, and the fixed facial features used when
 * no landmarks are present.
 */
module EmotionCalculator {
  import opened Numeric
  import opened EmotionTypes

  /** The stress weight table, in declaration order. */
  const EmotionWeights: seq<(Category, real)> :=
    [(Fearful, 0.35), (Angry, 0.25), (Sad, 0.20), (Surprised, 0.10), (Disgusted, 0.10)]

  /** Below this fraction of 100 the primary emotion is reported as neutral. */
  const ConfidenceThreshold: real := 0.65

  /** What the facial scorer returns for one frame. */
  datatype EmotionScores = EmotionScores(
    primaryEmotion: Category,
    confidence: real,
    stressLevel: real,
    anxietyLevel: real,
    emotionalTrend: Trend,
    facialFeatures: FacialFeatures)

  // ---------------------------------------------------------------- stress

  /** The fold `sum + emotions[emotion] * weight` over a weight table, from 0. */
  function WeightedSum(e: EmotionData, weights: seq<(Category, real)>): real
  {
    if weights == [] then 0.0
    else WeightedSum(e, weights[..|weights| - 1]) + e.Prob(weights[|weights| - 1].0) * weights[|weights| - 1].1
  }

  /** The sum of a weight table's weights. */
  function TotalWeight(weights: seq<(Category, real)>): real
  {
    if weights == [] then 0.0 else TotalWeight(weights[..|weights| - 1]) + weights[|weights| - 1].1
  }

  /** The stress weights add up to exactly 1. */
  lemma EmotionWeightsSumToOne()
    ensures TotalWeight(EmotionWeights) == 1.0
    ensures forall i :: 0 <= i < |EmotionWeights| ==> 0.0 <= EmotionWeights[i].1
  {
    var w := EmotionWeights;
    assert w[..1][..0] == [] && w[..2][..1] == w[..1] && w[..3][..2] == w[..2];
    assert w[..4][..3] == w[..3] && w[..5][..4] == w[..4] && w[..5] == w;
    assert TotalWeight(w[..1]) == 0.35;
    assert TotalWeight(w[..2]) == 0.60;
    assert TotalWeight(w[..3]) == 0.80;
    assert TotalWeight(w[..4]) == 0.90;
  }

  /** Non-negative weights applied to probabilities in [0, 1] give a sum between 0 and the total weight. */
  lemma {:induction false} WeightedSumWithin(e: EmotionData, weights: seq<(Category, real)>)
    requires e.InUnitRange()
    requires forall i :: 0 <= i < |weights| ==> 0.0 <= weights[i].1
    ensures 0.0 <= WeightedSum(e, weights) <= TotalWeight(weights)
  {
    if weights != [] {
      var init := weights[..|weights| - 1];
      var c := weights[|weights| - 1].0;
      var w := weights[|weights| - 1].1;
      var p := e.Prob(c);
      assert forall i :: 0 <= i < |init| ==> init[i] == weights[i];
      WeightedSumWithin(e, init);
      assert WeightedSum(e, weights) == WeightedSum(e, init) + p * w;
      assert TotalWeight(weights) == TotalWeight(init) + w;
      assert 0.0 <= p <= 1.0 && 0.0 <= w;
      ScaledWithin(p, w);
      assert 0.0 <= p * w <= w;
    }
  }

  /**
   * Stress: the weighted sum scaled to 0..100, raised to the power 1.5,
   * discounted by max(0, 1 - neutral) and capped at 100.
   */
  function StressLevel(e: EmotionData, pow: real -> real): (r: real)
    requires IsUnitPower(pow)
    ensures r <= 100.0
    ensures e.neutral >= 1.0 ==> r == 0.0
    ensures e.InUnitRange() ==> 0.0 <= r
  {
    var weightedSum := WeightedSum(e, EmotionWeights);
    var baseStress := weightedSum * 100.0;
    var stressIntensity := pow(baseStress / 100.0) * 100.0;
    var neutralFactor := Max(0.0, 1.0 - e.neutral);
    StressBaseInUnitRange(e);
    assert e.InUnitRange() ==> 0.0 <= pow(baseStress / 100.0);
    MulNonNegative(stressIntensity, neutralFactor);
    Min(stressIntensity * neutralFactor, 100.0)
  }

  /** On valid probabilities the argument handed to `Math.pow` lies in [0, 1]. */
  lemma StressBaseInUnitRange(e: EmotionData)
    ensures e.InUnitRange() ==> 0.0 <= WeightedSum(e, EmotionWeights) * 100.0 / 100.0 <= 1.0
  {
    if e.InUnitRange() {
      EmotionWeightsSumToOne();
      WeightedSumWithin(e, EmotionWeights);
    }
  }

  // --------------------------------------------------------------- anxiety

  /** The anxiety weights 0.45, 0.25, 0.15, 0.15 applied to fearful, surprised, sad, disgusted. */
  function AnxietyBase(e: EmotionData): real
  {
    e.fearful * 0.45 + e.surprised * 0.25 + e.sad * 0.15 + e.disgusted * 0.15
  }

  /** Anxiety before the rapid-change multiplier and the cap. */
  function UnboostedAnxiety(e: EmotionData): real
  {
    AnxietyBase(e) * (1.0 - e.neutral) * 100.0
  }

  /**
   * Anxiety: the base scaled by (1 - neutral), by 1.2 when surprised exceeds
   * 0.3, and by 100, then capped at 100.
   */
  function AnxietyLevel(e: EmotionData): (r: real)
    ensures r <= 100.0
    ensures e.surprised > 0.3 ==> r == Min(1.2 * UnboostedAnxiety(e), 100.0)
    ensures e.surprised <= 0.3 ==> r == Min(UnboostedAnxiety(e), 100.0)
    ensures e.neutral == 1.0 ==> r == 0.0
    ensures e.InUnitRange() ==> 0.0 <= r
  {
    var baseAnxiety := AnxietyBase(e);
    var emotionalIntensity := 1.0 - e.neutral;
    var rapidEmotionChange := if e.surprised > 0.3 then 1.2 else 1.0;
    var anxietyModifier := emotionalIntensity * rapidEmotionChange;
    AnxietyNonNegative(e);
    MulNonNegative(emotionalIntensity, rapidEmotionChange);
    MulNonNegative(baseAnxiety, anxietyModifier);
    assert baseAnxiety * anxietyModifier * 100.0 == rapidEmotionChange * UnboostedAnxiety(e);
    Min(baseAnxiety * anxietyModifier * 100.0, 100.0)
  }

  /** On valid probabilities the anxiety base is in [0, 1] and the intensity factor in [0, 1]. */
  lemma AnxietyNonNegative(e: EmotionData)
    ensures e.InUnitRange() ==> 0.0 <= AnxietyBase(e) <= 1.0 && 0.0 <= 1.0 - e.neutral <= 1.0
  {
  }

  // ------------------------------------------------- primary emotion, confidence

  /** (top - second) / top: how far the top probability stands out. */
  function Dominance(top: real, second: real): (d: real)
    requires 0.0 <= second <= top && 0.0 < top
    ensures 0.0 <= d <= 1.0
    ensures d == 0.0 <==> second == top
  {
    (top - second) / top
  }

  /**
   * The confidence in closed form: (2 * top - second) / total * 50, which is
   * what `(top / total) * (1 + (top - second) / top) * 50` simplifies to.
   */
  function ConfidenceFormula(top: real, second: real, total: real): real
    requires total != 0.0
  {
    (2.0 * top - second) / total * 50.0
  }

  /**
   * `(value / total) * (1 + dominance) * 50`: the share of the top value in
   * the total, raised by its dominance. When value is a largest part of the
   * total it lies in (0, 100].
   */
  function Confidence(value: real, second: real, total: real): (c: real)
    requires 0.0 < value <= total && 0.0 <= second <= value
    ensures 0.0 < c <= 100.0
    ensures c == ConfidenceFormula(value, second, total)
  {
    ConfidenceForm(value, second, total);
    RatioWithin(2.0 * value - second, total);
    (value / total) * (1.0 + Dominance(value, second)) * 50.0
  }

  /** A positive amount of at most twice t, over t, lies in (0, 2]. */
  lemma RatioWithin(a: real, t: real)
    requires 0.0 < a <= 2.0 * t
    ensures 0.0 < a / t <= 2.0
  {
    var x := a / t;
    assert x * t == a;
    if x <= 0.0 {
      ProductSign(-x, t);
    } else if x > 2.0 {
      ProductSign(x - 2.0, t);
    }
  }

  /** (v / t) * (1 + (v - s) / v) simplifies to (2v - s) / t. */
  lemma ConfidenceForm(v: real, s: real, t: real)
    requires 0.0 < v && 0.0 < t
    ensures (v / t) * (1.0 + (v - s) / v) == (2.0 * v - s) / t
  {
    var d := (v - s) / v;
    var q := v / t;
    assert d * v == v - s;
    assert v * (1.0 + d) == 2.0 * v - s;
    assert q * t == v;
    assert (q * (1.0 + d)) * t == (q * t) * (1.0 + d);
    assert (q * (1.0 + d)) * t == 2.0 * v - s;
  }

  /** The value the stable descending sort puts second: the largest of the other six. */
  lemma {:induction false} SecondLargest(s: seq<real>, i: nat)
    requires 2 <= |s| && i < |s|
    ensures exists j :: 0 <= j < |s| && j != i && s[j] == MaxOf(RemoveAt(s, i))
    ensures forall k :: 0 <= k < |s| && k != i ==> s[k] <= MaxOf(RemoveAt(s, i))
  {
    var rest := RemoveAt(s, i);
    var m := MaxOf(rest);
    var p :| 0 <= p < |rest| && rest[p] == m;
    var j := if p < i then p else p + 1;
    assert s[j] == m;
    forall k | 0 <= k < |s| && k != i
      ensures s[k] <= m
    {
      var q := if k < i then k else k - 1;
      assert rest[q] == s[k];
    }
  }

  /** The largest value, the runner-up and the total that the confidence is computed from. */
  lemma {:induction false} ConfidenceOperands(values: seq<real>)
    requires 2 <= |values| && AllWithin(values, 0.0, 1.0) && Sum(values) > 0.0
    ensures var i := FirstMaxIndex(values);
      && 0.0 < values[i] <= Sum(values)
      && 0.0 <= MaxOf(RemoveAt(values, i)) <= values[i]
  {
    var i := FirstMaxIndex(values);
    SumWithin(values, 0.0, values[i]);
    SumAtLeastTwo(values, i, i);
    SecondLargest(values, i);
  }

  /** Valid probabilities give a value list within [0, 1]. */
  lemma ValuesInUnitRange(e: EmotionData)
    requires e.InUnitRange()
    ensures |e.Values()| == 7 && AllWithin(e.Values(), 0.0, 1.0)
  {
  }

  /** The category at a rank is the one whose probability sits at that position of `Values()`. */
  lemma LabelIsArgmax(e: EmotionData, i: nat)
    requires i == FirstMaxIndex(e.Values())
    ensures i < 7 && Categories[i].Rank() == i
    ensures forall c: Category :: e.Prob(c) <= e.Prob(Categories[i])
    ensures forall c: Category :: c.Rank() < i ==> e.Prob(c) < e.Prob(Categories[i])
  {
    var values := e.Values();
    assert forall c: Category :: values[c.Rank()] == e.Prob(c);
    assert values[i] == e.Prob(Categories[i]);
  }

  /**
   * The primary emotion and its confidence. The label is a category of
   * maximal probability (ties go to the earlier key, as the sort is stable),
   * replaced by Neutral when the confidence is below 65; the confidence itself
   * is reported unchanged.
   */
  function PrimaryEmotionWithConfidence(e: EmotionData): (r: (Category, real))
    requires e.InUnitRange() && Sum(e.Values()) > 0.0
    ensures 0.0 < r.1 <= 100.0
    ensures var values := e.Values();
      r.1 == ConfidenceFormula(MaxOf(values), MaxOf(RemoveAt(values, FirstMaxIndex(values))), Sum(values))
    ensures r.1 < ConfidenceThreshold * 100.0 ==> r.0 == Neutral
    ensures r.1 >= ConfidenceThreshold * 100.0 ==>
      && (forall c: Category :: e.Prob(c) <= e.Prob(r.0))
      && (forall c: Category :: c.Rank() < r.0.Rank() ==> e.Prob(c) < e.Prob(r.0))
  {
    var values := e.Values();
    ValuesInUnitRange(e);
    var i := FirstMaxIndex(values);
    LabelIsArgmax(e, i);
    var confidence := DistributionConfidence(values);
    if confidence < ConfidenceThreshold * 100.0 then (Neutral, confidence)
    else (Categories[i], confidence)
  }

  /**
   * The confidence of a value list: the sorted head against the runner-up
   * and the total.
   */
  function DistributionConfidence(values: seq<real>): (c: real)
    requires 2 <= |values| && AllWithin(values, 0.0, 1.0) && Sum(values) > 0.0
    ensures 0.0 < c <= 100.0
    ensures c == ConfidenceFormula(MaxOf(values), MaxOf(RemoveAt(values, FirstMaxIndex(values))), Sum(values))
  {
    ConfidenceOperands(values);
    var i := FirstMaxIndex(values);
    MaxAtFirstMaxIndex(values);
    Confidence(values[i], MaxOf(RemoveAt(values, i)), Sum(values))
  }

  /**
   * The confidence formula on a value list: when position b, other than a
   * position a of the largest value, holds more than 7/23 of the largest
   * value, the confidence is below 65.
   */
  lemma {:induction false} NearTieConfidence(values: seq<real>, a: nat, b: nat)
    requires 2 <= |values| && AllWithin(values, 0.0, 1.0) && Sum(values) > 0.0
    requires a < |values| && b < |values| && a != b
    requires forall k :: 0 <= k < |values| ==> values[k] <= values[a]
    requires 23.0 * values[b] > 7.0 * values[a]
    ensures var i := FirstMaxIndex(values);
      var v := values[i];
      var s := MaxOf(RemoveAt(values, i));
      0.0 < v <= Sum(values) && 0.0 <= s <= v && Confidence(v, s, Sum(values)) < 65.0
  {
    ConfidenceOperands(values);
    var i := FirstMaxIndex(values);
    var v := values[i];
    var t := Sum(values);
    var s := MaxOf(RemoveAt(values, i));
    SecondLargest(values, i);
    var j :| 0 <= j < |values| && j != i && values[j] == s;
    assert forall k :: 0 <= k < |values| ==> 0.0 <= values[k];
    SumAtLeastTwo(values, i, j);
    assert v == values[a];
    if b != i {
      assert values[b] <= s;
    } else {
      assert values[a] <= s;
    }
    NearTieArithmetic(v, s, t);
  }

  /** With v + s <= t and s above 7/23 of v, (2v - s) / t * 50 is below 65. */
  lemma NearTieArithmetic(v: real, s: real, t: real)
    requires 0.0 < v && 0.0 <= s <= v && v + s <= t && 23.0 * s > 7.0 * v
    ensures Confidence(v, s, t) < 65.0
  {
    var d := Dominance(v, s);
    assert v * (1.0 + d) == 2.0 * v - s;
    var q := (v / t) * (1.0 + d);
    assert Confidence(v, s, t) == q * 50.0;
    assert q * t == 2.0 * v - s;
    assert 50.0 * (2.0 * v - s) < 65.0 * t;
    assert (q * 50.0 - 65.0) * t == 50.0 * (q * t) - 65.0 * t;
    MulNonNegative(q * 50.0 - 65.0, t);
  }

  /**
   * A near tie falls back to Neutral: when a second category reaches more
   * than 7/23 of the largest probability, the confidence stays below 65.
   */
  lemma NearTieIsNeutral(e: EmotionData, top: Category, runnerUp: Category)
    requires e.InUnitRange() && Sum(e.Values()) > 0.0
    requires top != runnerUp
    requires forall c: Category :: e.Prob(c) <= e.Prob(top)
    requires 23.0 * e.Prob(runnerUp) > 7.0 * e.Prob(top)
    ensures PrimaryEmotionWithConfidence(e).1 < ConfidenceThreshold * 100.0
    ensures PrimaryEmotionWithConfidence(e).0 == Neutral
  {
    var values := e.Values();
    ValuesInUnitRange(e);
    var i := FirstMaxIndex(values);
    LabelIsArgmax(e, i);
    assert values[i] == e.Prob(top);
    assert values[runnerUp.Rank()] == e.Prob(runnerUp);
    assert forall k :: 0 <= k < |values| ==> values[k] <= values[top.Rank()];
    NearTieConfidence(values, top.Rank(), runnerUp.Rank());
  }

  /** A category that is maximal and strictly above every earlier one is the one the sort puts first. */
  lemma LeaderIsFirstMax(e: EmotionData, top: Category)
    requires forall c: Category :: e.Prob(c) <= e.Prob(top)
    requires forall c: Category :: c.Rank() < top.Rank() ==> e.Prob(c) < e.Prob(top)
    ensures FirstMaxIndex(e.Values()) == top.Rank()
  {
    var values := e.Values();
    var i := FirstMaxIndex(values);
    LabelIsArgmax(e, i);
    assert values[top.Rank()] == e.Prob(top);
  }

  /** The category at position j of the key order, and its value. */
  lemma CategoryAt(e: EmotionData, j: nat)
    requires j < 7
    ensures Categories[j].Rank() == j && e.Values()[j] == e.Prob(Categories[j])
  {
  }

  /** With v <= t and 100v - 50s >= 65t, (2v - s) / t * 50 is at least 65. */
  lemma ClearLeaderArithmetic(v: real, s: real, t: real)
    requires 0.0 < t && 100.0 * v - 50.0 * s >= 65.0 * t
    ensures ConfidenceFormula(v, s, t) >= 65.0
  {
    var q := (2.0 * v - s) / t;
    assert q * t == 2.0 * v - s;
    if q * 50.0 < 65.0 {
      ProductSign(65.0 - q * 50.0, t);
    }
  }

  /**
   * A clear leader is reported: when the top category comes first among the
   * maximal ones and 100 times its probability, less 50 times any other,
   * reaches 65 times the total, the confidence is at least 65 and the label
   * is that category.
   */
  lemma ClearLeaderIsReported(e: EmotionData, top: Category)
    requires e.InUnitRange() && Sum(e.Values()) > 0.0
    requires forall c: Category :: e.Prob(c) <= e.Prob(top)
    requires forall c: Category :: c.Rank() < top.Rank() ==> e.Prob(c) < e.Prob(top)
    requires forall c: Category :: c != top ==> 100.0 * e.Prob(top) - 50.0 * e.Prob(c) >= 65.0 * Sum(e.Values())
    ensures PrimaryEmotionWithConfidence(e).1 >= ConfidenceThreshold * 100.0
    ensures PrimaryEmotionWithConfidence(e).0 == top
  {
    ClearLeaderConfidence(e, top);
    ConfidentLabelIsLeader(e, top);
  }

  /** The confidence half of ClearLeaderIsReported. */
  lemma ClearLeaderConfidence(e: EmotionData, top: Category)
    requires e.InUnitRange() && Sum(e.Values()) > 0.0
    requires forall c: Category :: e.Prob(c) <= e.Prob(top)
    requires forall c: Category :: c.Rank() < top.Rank() ==> e.Prob(c) < e.Prob(top)
    requires forall c: Category :: c != top ==> 100.0 * e.Prob(top) - 50.0 * e.Prob(c) >= 65.0 * Sum(e.Values())
    ensures PrimaryEmotionWithConfidence(e).1 >= ConfidenceThreshold * 100.0
  {
    var values := e.Values();
    LeaderIsFirstMax(e, top);
    SecondLargest(values, top.Rank());
    var j :| 0 <= j < |values| && j != top.Rank() && values[j] == MaxOf(RemoveAt(values, top.Rank()));
    CategoryAt(e, j);
    CategoryAt(e, top.Rank());
    var runnerUp := Categories[j];
    assert runnerUp != top;
    MaxAtFirstMaxIndex(values);
    ClearLeaderArithmetic(e.Prob(top), e.Prob(runnerUp), Sum(values));
  }

  /** The label half: a confident reading names the leader, the first maximal category. */
  lemma ConfidentLabelIsLeader(e: EmotionData, top: Category)
    requires e.InUnitRange() && Sum(e.Values()) > 0.0
    requires forall c: Category :: e.Prob(c) <= e.Prob(top)
    requires forall c: Category :: c.Rank() < top.Rank() ==> e.Prob(c) < e.Prob(top)
    requires PrimaryEmotionWithConfidence(e).1 >= ConfidenceThreshold * 100.0
    ensures PrimaryEmotionWithConfidence(e).0 == top
  {
    var named := PrimaryEmotionWithConfidence(e).0;
    assert e.Prob(top) <= e.Prob(named) && e.Prob(named) <= e.Prob(top);
    assert !(named.Rank() < top.Rank()) && !(top.Rank() < named.Rank());
  }

  /** The total of a probability record is the sum of its seven fields. */
  lemma SumOfValues(e: EmotionData)
    ensures Sum(e.Values()) == e.neutral + e.happy + e.sad + e.angry + e.fearful + e.disgusted + e.surprised
  {
    var s7 := e.Values();
    var s6 := [e.neutral, e.happy, e.sad, e.angry, e.fearful, e.disgusted];
    var s5 := [e.neutral, e.happy, e.sad, e.angry, e.fearful];
    var s4 := [e.neutral, e.happy, e.sad, e.angry];
    var s3 := [e.neutral, e.happy, e.sad];
    var s2 := [e.neutral, e.happy];
    var s1 := [e.neutral];
    assert s7[..6] == s6 && s6[..5] == s5 && s5[..4] == s4;
    assert s4[..3] == s3 && s3[..2] == s2 && s2[..1] == s1 && s1[..0] == [];
    assert Sum(s1) == e.neutral;
    assert Sum(s2) == Sum(s1) + e.happy;
    assert Sum(s3) == Sum(s2) + e.sad;
    assert Sum(s4) == Sum(s3) + e.angry;
    assert Sum(s5) == Sum(s4) + e.fearful;
    assert Sum(s6) == Sum(s5) + e.disgusted;
    assert Sum(s7) == Sum(s6) + e.surprised;
  }

  /** A frame that is certainly happy reads as happy with full confidence. */
  lemma CertainlyHappy()
    ensures var e := EmotionData(0.0, 1.0, 0.0, 0.0, 0.0, 0.0, 0.0);
      Sum(e.Values()) == 1.0 && PrimaryEmotionWithConfidence(e) == (Happy, 100.0)
  {
    var e := EmotionData(0.0, 1.0, 0.0, 0.0, 0.0, 0.0, 0.0);
    SumOfValues(e);
    ClearLeaderIsReported(e, Happy);
    var values := e.Values();
    LeaderIsFirstMax(e, Happy);
    SecondLargest(values, 1);
    assert MaxOf(values) == 1.0 by {
      assert values[1] == 1.0;
    }
    assert MaxOf(RemoveAt(values, 1)) == 0.0;
  }

  // ---------------------------------------------------------------- trend

  /** The position of each trend label in the rule table; 'neutral' comes last. */
  function Priority(t: Trend): nat
  {
    match t
    case HighlyStressed => 0
    case HighlyAnxious => 1
    case ModeratelyTense => 2
    case VeryPositive => 3
    case Positive => 4
    case Composed => 5
    case Melancholic => 6
    case NeutralTrend => 7
  }

  /** The condition of each row of the rule table; the final 'neutral' row always applies. */
  predicate RuleHolds(t: Trend, stress: real, anxiety: real, e: EmotionData)
  {
    match t
    case HighlyStressed => stress > 75.0 && anxiety > 60.0
    case HighlyAnxious => anxiety > 75.0 && stress > 50.0
    case ModeratelyTense => stress > 60.0 || anxiety > 60.0
    case VeryPositive => e.happy > 0.5 && e.neutral < 0.3
    case Positive => e.happy > 0.3
    case Composed => e.neutral > 0.6
    case Melancholic => e.sad > 0.3 && e.neutral > 0.3
    case NeutralTrend => true
  }

  /**
   * The emotional trend: the first row of the rule table, in priority order,
   * whose condition holds.
   */
  function EmotionalTrend(stress: real, anxiety: real, e: EmotionData): (t: Trend)
    ensures RuleHolds(t, stress, anxiety, e)
    ensures forall u: Trend :: Priority(u) < Priority(t) ==> !RuleHolds(u, stress, anxiety, e)
  {
    if stress > 75.0 && anxiety > 60.0 then HighlyStressed
    else if anxiety > 75.0 && stress > 50.0 then HighlyAnxious
    else if stress > 60.0 || anxiety > 60.0 then ModeratelyTense
    else if e.happy > 0.5 && e.neutral < 0.3 then VeryPositive
    else if e.happy > 0.3 then Positive
    else if e.neutral > 0.6 then Composed
    else if e.sad > 0.3 && e.neutral > 0.3 then Melancholic
    else NeutralTrend
  }

  /** The first-match rule fixes the label: no other label has the two properties. */
  lemma TrendIsUnique(stress: real, anxiety: real, e: EmotionData, t: Trend)
    requires RuleHolds(t, stress, anxiety, e)
    requires forall u: Trend :: Priority(u) < Priority(t) ==> !RuleHolds(u, stress, anxiety, e)
    ensures t == EmotionalTrend(stress, anxiety, e)
  {
    var r := EmotionalTrend(stress, anxiety, e);
    assert Priority(r) < Priority(t) ==> !RuleHolds(r, stress, anxiety, e);
    assert Priority(t) < Priority(r) ==> !RuleHolds(t, stress, anxiety, e);
  }

  /** Overlapping rows resolve to the earlier one. */
  lemma TrendTableExamples()
    ensures EmotionalTrend(80.0, 65.0, EmotionData(0.0, 0.0, 0.0, 0.0, 0.0, 0.0, 0.0)) == HighlyStressed
    ensures RuleHolds(ModeratelyTense, 80.0, 65.0, EmotionData(0.0, 0.0, 0.0, 0.0, 0.0, 0.0, 0.0))
    ensures EmotionalTrend(55.0, 80.0, EmotionData(0.0, 0.0, 0.0, 0.0, 0.0, 0.0, 0.0)) == HighlyAnxious
    ensures EmotionalTrend(65.0, 10.0, EmotionData(0.0, 0.0, 0.0, 0.0, 0.0, 0.0, 0.0)) == ModeratelyTense
    ensures EmotionalTrend(0.0, 0.0, EmotionData(0.2, 0.6, 0.0, 0.0, 0.0, 0.0, 0.0)) == VeryPositive
  {
  }

  // -------------------------------------------------------- facial features

  /**
   * Facial features: the fixed 0.5 / 0.5 / 0.5 when there are no landmarks;
   * otherwise the values the placeholder estimators produced, given here as
   * `estimated`.
   */
  function AnalyzeFacialFeatures(landmarks: seq<Landmark>, estimated: FacialFeatures): (f: FacialFeatures)
    ensures |landmarks| == 0 ==> f == FacialFeatures(0.5, 0.5, 0.5)
    ensures |landmarks| > 0 ==> f == estimated
    ensures estimated.InUnitRange() ==> f.InUnitRange()
  {
    if |landmarks| == 0 then FacialFeatures(0.5, 0.5, 0.5) else estimated
  }

  // ------------------------------------------------------------ composition

  /**
   * One frame's facial scores: every field is the sub-result as computed,
   * and each bounded score lies in its range.
   */
  function CalculateEmotionScores(
    e: EmotionData, landmarks: seq<Landmark>, estimated: FacialFeatures, pow: real -> real): (s: EmotionScores)
    requires IsUnitPower(pow)
    requires e.InUnitRange() && Sum(e.Values()) > 0.0
    ensures s.stressLevel == StressLevel(e, pow) && 0.0 <= s.stressLevel <= 100.0
    ensures s.anxietyLevel == AnxietyLevel(e) && 0.0 <= s.anxietyLevel <= 100.0
    ensures (s.primaryEmotion, s.confidence) == PrimaryEmotionWithConfidence(e)
    ensures 0.0 < s.confidence <= 100.0
    ensures s.emotionalTrend == EmotionalTrend(s.stressLevel, s.anxietyLevel, e)
    ensures s.facialFeatures == AnalyzeFacialFeatures(landmarks, estimated)
  {
    var stressLevel := StressLevel(e, pow);
    var anxietyLevel := AnxietyLevel(e);
    var (primaryEmotion, confidence) := PrimaryEmotionWithConfidence(e);
    var emotionalTrend := EmotionalTrend(stressLevel, anxietyLevel, e);
    var facialFeatures := AnalyzeFacialFeatures(landmarks, estimated);
    EmotionScores(primaryEmotion, confidence, stressLevel, anxietyLevel, emotionalTrend, facialFeatures)
  }
}
