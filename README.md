# EvolviSense scoring core in Dafny

EvolviSense watches a person through the webcam and microphone and turns each
moment into an *emotion state*. Each state holds these fields:

- a primary emotion label and a confidence;
- a stress level and an anxiety level;
- an emotional trend label;
- facial features and, optionally, audio indicators.

This project models the arithmetic that produces and summarises those states:

- the facial scores: stress, anxiety, the primary emotion with its confidence, the trend label, and the facial features;
- the combined video/audio verdict;
- the per-frame audio indicators: frequency bands, smoothing, pitch, volume and speech rate;
- the running aggregates: the top-three peaks;
- the short-term trend direction and its intensity;
- the end-of-session summary: averages, peak, stability and dominant emotion.

Numbers are Dafny `real`s. A probability is in [0, 1] and a level is in [0, 100].
`Math.pow(x, 1.5)` and `Math.sqrt` are passed in as functions, together with
the properties the model relies on:

- `IsUnitPower`: the power maps [0, 1] into [0, 1];
- `IsSquareRootBound`: the root is non-negative on non-negative inputs.

Modules:

- `Numeric`: sums, means, maxima, first/last arg-max, and `Square`.
- `EmotionTypes`: the records of `src/types/emotion.ts`.
- `EmotionCalculator`: `src/utils/emotionCalculator.ts`.
- `Combined`: `src/utils/combinedAnalysis.ts`.
- `EmotionAggregator`: `src/utils/analysis/emotionAggregator.ts`.
- `EmotionTrends`: `src/utils/analysis/emotionTrends.ts`.
- `SessionAnalysis`: `src/utils/sessionAnalysis.ts`.
- `AudioAnalysis`: `src/hooks/useAudioAnalysis.ts`.
  - The hook's mutable references become the fields of class `AudioAnalyzer`.
  - The analyser's buffer is an `array<real>`.
  - The zero-crossing loop is a method with loop invariants.

Sorting conventions:

- A stable descending sort read at position 0 is modelled as the *first* index of a maximum (`FirstMaxIndex`).
- `reduce((a, b) => a[1] > b[1] ? a : b)` keeps the *later* of two tied entries and is modelled as `LastMaxIndex`.
  In the session summary this means that, of two labels seen equally often, the one whose first appearance comes later is the dominant emotion (`src/utils/sessionAnalysis.ts:52-53`).

## Model

| member | source | states |
|---|---|---|
| EmotionCalculator.EmotionWeightsSumToOne | src/utils/emotionCalculator.ts:13-19 | the five stress weights are non-negative and add up to exactly 1 |
| EmotionCalculator.WeightedSumWithin | src/utils/emotionCalculator.ts:44-52 | a weighted sum of probabilities in [0, 1] with non-negative weights lies between 0 and the total weight |
| EmotionCalculator.StressLevel | src/utils/emotionCalculator.ts:44-59 | the stress level is at most 100; it is 0 when `neutral` is 1 or more (the neutral factor vanishes); it is non-negative for valid probabilities |
| EmotionCalculator.AnxietyLevel | src/utils/emotionCalculator.ts:61-76 | the anxiety level is capped at 100; it is the unboosted score times 1.2 exactly when `surprised` exceeds 0.3; it is 0 when `neutral` is 1; it is non-negative for valid probabilities |
| EmotionCalculator.Dominance | src/utils/emotionCalculator.ts:88 | the dominance of the top value over the runner-up lies in [0, 1] and is 0 exactly when the two are equal |
| EmotionCalculator.Confidence | src/utils/emotionCalculator.ts:89 | the confidence lies in (0, 100] when the top value is positive, at least the runner-up, and at most the total, and it equals the closed form (2·top − second) / total · 50 |
| EmotionCalculator.ConfidenceOperands | src/utils/emotionCalculator.ts:80-85 | for probabilities with a positive total, the sorted head is positive and at most the total, and the runner-up lies between 0 and the head |
| EmotionCalculator.PrimaryEmotionWithConfidence | src/utils/emotionCalculator.ts:78-95 | the confidence is (2·top − second) / total · 50, where top is the largest probability, second the largest of the other six, and total their sum; it lies in (0, 100]; below 65 the label is `neutral`; otherwise the label has maximal probability and every earlier key has strictly less (stable-sort tie rule) |
| EmotionCalculator.DistributionConfidence | src/utils/emotionCalculator.ts:80-89 | the confidence of a probability list is the closed form over its sorted head, its runner-up and its total, and lies in (0, 100] |
| EmotionCalculator.ClearLeaderIsReported | src/utils/emotionCalculator.ts:80-94 | the converse of the near-tie rule: when the first maximal category has 100·top − 50·other ≥ 65·total against every other category, the confidence is at least 65 and that category is the label |
| EmotionCalculator.CertainlyHappy | src/utils/emotionCalculator.ts:78-95 | probabilities that are 1 for `happy` and 0 elsewhere give the label `happy` with confidence 100 |
| EmotionCalculator.NearTieIsNeutral | src/utils/emotionCalculator.ts:85-94 | when a second emotion exceeds 7/23 of the largest probability, the confidence is below 65 and the label falls back to `neutral` |
| EmotionCalculator.EmotionalTrend | src/utils/emotionCalculator.ts:97-111 | the trend label is the first row of the rule table whose condition holds: its own condition holds and no earlier row's does |
| EmotionCalculator.TrendIsUnique | src/utils/emotionCalculator.ts:103-110 | a label whose row holds and which no earlier row precedes is the computed trend |
| EmotionCalculator.TrendTableExamples | src/utils/emotionCalculator.ts:103-107 | overlapping rows resolve to the earlier one (stress 80 / anxiety 65 is `highly_stressed`, although `moderately_tense` also holds) |
| EmotionCalculator.AnalyzeFacialFeatures | src/utils/emotionCalculator.ts:113-142 | without landmarks the features are 0.5 / 0.5 / 0.5; otherwise they are the estimators' values, which stay in [0, 1] when the estimators do |
| EmotionCalculator.CalculateEmotionScores | src/utils/emotionCalculator.ts:24-42 | each field of the frame's scores is its sub-result; stress and anxiety lie in [0, 100]; confidence lies in (0, 100]; the trend is computed from the frame's own stress and anxiety |
| Combined.CombinedAnalysis | src/utils/combinedAnalysis.ts:3-33 | overall stress and confidence are the stressed and confident scores; the dominant emotion has a maximal score and every later-listed emotion scores strictly less (the later entry wins ties) |
| Combined.OverallStressWithin | src/utils/combinedAnalysis.ts:7-11 | for valid inputs, the overall stress lies in [0, 100] |
| Combined.OverallConfidenceWithin | src/utils/combinedAnalysis.ts:13-16 | for valid inputs, the overall confidence lies in [0, 100] |
| Combined.AllTiedGivesExcited | src/utils/combinedAnalysis.ts:25-26 | when all four scores tie, the dominant emotion is `excited`, the last key |
| EmotionAggregator.SortDescending | src/utils/analysis/emotionAggregator.ts:53 | the sort result is a permutation of its input, in non-increasing order |
| EmotionAggregator.TakeOfSortedIsTopK | src/utils/analysis/emotionAggregator.ts:53 | the first k of the descending sort are a top-k selection: sorted, of length min(n, k), drawn from the input, with every element left out at most every kept one |
| EmotionAggregator.CreateEmptyAggregate | src/utils/analysis/emotionAggregator.ts:42-47 | a record starts with value, confidence and variance 0 and no peaks, so the first update computes its statistics over its own value alone |
| EmotionAggregator.FrameValue | src/utils/analysis/emotionAggregator.ts:26-32 | a frame's value for a metric lies between its facial and its audio reading (a missing audio reading counts as 0); it equals them when they agree; for stress and anxiety the facial side weighs more, so the value lies above their midpoint when the audio reading is lower |
| EmotionAggregator.AggregateEmotions | src/utils/analysis/emotionAggregator.ts:16-40 | the history is folded frame by frame from three empty records, and after n frames each record holds min(n, 3) peaks; what those peaks are is stated by `PeaksAreTopThree` and the empty case by `EmptyHistory` |
| EmotionAggregator.UpdateAggregate | src/utils/analysis/emotionAggregator.ts:49-62 | the new peaks are the top three of the old peaks plus the new value, and there are min(old + 1, 3) of them; value, confidence and variance are the statistics of that working sample |
| EmotionAggregator.EmptyHistory | src/utils/analysis/emotionAggregator.ts:17-23 | an empty history gives empty aggregates: zero value, confidence and variance, and no peaks |
| EmotionAggregator.PeaksStep | src/utils/analysis/emotionAggregator.ts:53 | keeping only the top three before adding a value loses nothing: it gives the top three of the full sequence |
| EmotionAggregator.PeaksAreTopThree | src/utils/analysis/emotionAggregator.ts:16-40 | after the fold, each metric's peaks are the three largest frame values of the whole history, in descending order |
| EmotionAggregator.WorkingSampleIsBounded | src/utils/analysis/emotionAggregator.ts:54-60 | after the last frame, value, confidence and variance are the statistics of the previous peaks plus that frame's value: at most four values, all taken from the history's frame values |
| EmotionTrends.TrendDirection | src/utils/analysis/emotionTrends.ts:27-38 | fewer than two states are stable; increasing means the two changes sum to more than 0 and decreasing that they do not; anything not stable has a change of at least 5 |
| EmotionTrends.DirectionOfLastTwo | src/utils/analysis/emotionTrends.ts:30-31 | only the last two states decide the direction |
| EmotionTrends.WindowKeepsDirection | src/utils/analysis/emotionTrends.ts:14 | taking the last five states does not change the direction of the whole history |
| EmotionTrends.LargeChangeIsNotStable | src/utils/analysis/emotionTrends.ts:36-37 | a change of 5 or more is never stable, and it is increasing exactly when the summed change is positive |
| EmotionTrends.SwapReversesIncrease | src/utils/analysis/emotionTrends.ts:33-37 | swapping two states turns increasing into decreasing, and stable stays stable |
| EmotionTrends.BalancedChangeIsDecreasing | src/utils/analysis/emotionTrends.ts:37 | stress up 10 with anxiety down 10 averages to 0 and so reads as decreasing |
| EmotionTrends.Intensity | src/utils/analysis/emotionTrends.ts:40-46 | with levels in [0, 100] the intensity lies in [0, 100], and it is at least the value obtained with any single stress peak, or any single anxiety peak, in place of the largest |
| EmotionTrends.PeakMaximumIsHistoryMaximum | src/utils/analysis/emotionTrends.ts:41-42 | the largest kept peak is a frame value and is at least every frame value of the history |
| EmotionTrends.AnalyzeEmotionTrends | src/utils/analysis/emotionTrends.ts:10-25 | the report's direction is that of the whole history, its intensity is the intensity of the aggregates, and that lies in [0, 100] for in-range aggregates |
| Numeric.MeanWithin | src/utils/sessionAnalysis.ts:24-36 | a mean of values within [lo, hi] lies within [lo, hi] |
| SessionAnalysis.Variance | src/utils/sessionAnalysis.ts:65-69 | the variance is non-negative |
| SessionAnalysis.VarianceZeroIffConstant | src/utils/sessionAnalysis.ts:65-69 | the variance is 0 exactly when all values are equal |
| SessionAnalysis.Distinct | src/utils/sessionAnalysis.ts:47-52 | the keys of the count table are the labels seen, each once, in order of first appearance |
| SessionAnalysis.DominantEmotion | src/utils/sessionAnalysis.ts:47-53 | the dominant label occurs in the session, no label occurs more often, and among tied labels it is the one whose first appearance comes last |
| SessionAnalysis.MajorityIsDominant | src/utils/sessionAnalysis.ts:52-53 | a label on more than half of the states is the dominant one |
| SessionAnalysis.CountEmotions | src/utils/sessionAnalysis.ts:47-50 | the counting loop's map holds, for each label seen, the number of its occurrences, with keys in first-appearance order |
| SessionAnalysis.CalculateSessionSummary | src/utils/sessionAnalysis.ts:12-63 | the method's result is the session summary of the history |
| SessionAnalysis.EmptySessionSummary | src/utils/sessionAnalysis.ts:13-22 | an empty session has zero averages and peak, stability 100 and dominant emotion `neutral` |
| SessionAnalysis.AveragesWithin | src/utils/sessionAnalysis.ts:24-36 | each average is the field's sum divided by the number of states, and lies in [0, 100] when every level does |
| SessionAnalysis.PeakStressIsMaximum | src/utils/sessionAnalysis.ts:39 | the peak stress is the stress of some state and at least every state's stress |
| SessionAnalysis.StabilityAtMostHundred | src/utils/sessionAnalysis.ts:42-44 | stability is at most 100, and equals 100 exactly when stress and anxiety are both constant |
| SessionAnalysis.DominantIsMostFrequent | src/utils/sessionAnalysis.ts:47-53 | the summary's dominant emotion is a most frequent label of the session, and a majority label wins |
| SessionAnalysis.CalmThenTenseSession | src/utils/sessionAnalysis.ts:24-53 | five frames at stress 20 / anxiety 10 followed by five at 90 / 80 give a peak of 90 and an average of 55, and a label on six frames is dominant |
| AudioAnalysis.NormalizeFreq | src/hooks/useAudioAnalysis.ts:90 | a normalised band lies in [0, 1]: 0 at or below -140 dB, 1 at or above -80 dB, and linear in between |
| AudioAnalysis.NormalizeFreqMonotone | src/hooks/useAudioAnalysis.ts:90 | normalisation preserves order |
| AudioAnalysis.BandMeanWithin | src/hooks/useAudioAnalysis.ts:85-87 | a band mean, the same mean the session averages use because the constant divisor is the band width, lies within the bounds of its bins |
| AudioAnalysis.NormalizedBands | src/hooks/useAudioAnalysis.ts:85-94 | the low, mid and high bands are the normalised means of bins 0-9, 10-29 and 30-49, each in [0, 1] |
| AudioAnalysis.RawIndicators | src/hooks/useAudioAnalysis.ts:97-100 | the four indicators lie in [0, 100]; silence in mid and high gives zero stress, excitement and nervousness |
| AudioAnalysis.IndicatorsMonotone | src/hooks/useAudioAnalysis.ts:97-100 | louder bands never lower stress, excitement or nervousness and never raise confidence |
| AudioAnalysis.Smooth | src/hooks/useAudioAnalysis.ts:103-110 | a smoothed value lies between the raw and the previous value and keeps 70 % of their gap |
| AudioAnalysis.SmoothingConverges | src/hooks/useAudioAnalysis.ts:103-110 | after n smoothing steps towards a fixed raw value, the gap is 0.7ⁿ times the initial gap |
| AudioAnalysis.Pitch | src/hooks/useAudioAnalysis.ts:130-135 | the pitch is at least 50 |
| AudioAnalysis.Volume | src/hooks/useAudioAnalysis.ts:137-140 | the volume lies in [0, 100] |
| AudioAnalysis.Crossings | src/hooks/useAudioAnalysis.ts:145-150 | there are at most n - 1 crossings, and there is at least one exactly when some neighbouring pair changes sign |
| AudioAnalysis.CrossingsCountChanges | src/hooks/useAudioAnalysis.ts:144-150 | the crossing count is exactly the number of bins whose sign class differs from the bin before |
| AudioAnalysis.SpeechRate | src/hooks/useAudioAnalysis.ts:142-152 | the speech rate lies in [0, 100] |
| AudioAnalysis.OneSignClassHasNoSpeech | src/hooks/useAudioAnalysis.ts:146-147 | a buffer that is all negative or all non-negative has speech rate 0 |
| AudioAnalysis.SignChangeIsSpeech | src/hooks/useAudioAnalysis.ts:145-151 | a single sign change between neighbouring bins makes the speech rate positive |
| AudioAnalysis.CalculateSpeechRate | src/hooks/useAudioAnalysis.ts:142-152 | the crossing-counting loop over the array returns the speech rate of its contents |
| AudioAnalysis.Reading | src/hooks/useAudioAnalysis.ts:97-114 | the first reading takes the raw indicators; later ones smooth each indicator towards the previous reading; pitch, volume and rate come from the buffer |
| AudioAnalysis.ReadingInRange | src/hooks/useAudioAnalysis.ts:103-114 | if the previous reading is in range, so is the new one, and its pitch is at least 50 |
| AudioAnalysis.UnsmoothedFields | src/hooks/useAudioAnalysis.ts:111-113 | pitch, volume and speech rate do not depend on the previous reading |
| AudioAnalysis.AudioAnalyzer.constructor | src/hooks/useAudioAnalysis.ts:10-18 | a new analyser is inactive, with no buffer and no previous reading; a buffer is held exactly while an analyser is connected |
| AudioAnalysis.AudioAnalyzer.Start | src/hooks/useAudioAnalysis.ts:20-59 | starting connects the analyser and allocates a fresh buffer of 1024 bins; the previous reading is kept |
| AudioAnalysis.AudioAnalyzer.Stop | src/hooks/useAudioAnalysis.ts:61-74 | stopping disconnects and clears the buffer and the previous reading |
| AudioAnalysis.AudioAnalyzer.Analyze | src/hooks/useAudioAnalysis.ts:76-118 | without a connection or buffer it returns nothing and changes nothing; otherwise it fills the buffer with the spectrum, returns the reading smoothed against the previous one, and stores it as the new previous reading |

## Left out

- Microphone and webcam access, `AudioContext` and `AnalyserNode` set-up, stream tracks, React state (`isAudioActive`, `error`) and the error path of starting: all I/O. `Analyze` receives the spectrum the analyser would write as a parameter, and `Start` has no failure case.
- `Math.pow(x, 1.5)` and `Math.sqrt` are function parameters constrained by `IsUnitPower` and `IsSquareRootBound`. Only those bounds are relied on.
- The landmark estimators `calculateEyeOpenness`, `calculateBrowTension` and `calculateMouthTension` use `Math.random`. Their results are the `estimated` parameter of `AnalyzeFacialFeatures`.
- `calculateWeightedAverage`, `calculateConfidence` and `calculateVariance` are called by the aggregator but not defined in its file. They are the `SampleStatistics` parameter, and only their use is modelled.
- `determineTrend` and `generateDescription` are called by the trend analysis but not defined anywhere. The report keeps only direction and intensity.
- IEEE doubles, `NaN` and infinities are not modelled; numbers are exact reals. The inputs that would produce them are excluded by preconditions instead:
  - a zero total for the primary emotion (division by zero);
  - an empty peak list in the intensity (`Math.max()` of nothing is -∞).
- EmotionTrends.Intensity: requires non-empty stress and anxiety peaks. The source returns -∞ or `NaN` for an empty aggregate.
- EmotionCalculator.PrimaryEmotionWithConfidence: requires a positive probability total. With a zero top value the source divides by zero.
- The optional `stressed` and `nervous` keys of `EmotionData` are not modelled. Only the seven detector probabilities take part in the sort and total.
- `SAMPLE_RATE` and `SMOOTHING_TIME_CONSTANT` configure the browser analyser only, so they have no counterpart here.
- Labels are enumerations rather than free strings; the dominant emotion of a session is one of the seven categories.
- AudioAnalysis.Pitch: the contract gives only the lower bound of 50. With dB values below -140 the source value exceeds 100, so no upper bound holds.
