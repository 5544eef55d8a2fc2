/**
 * The records exchanged by the scoring engine: the facial probability vector,
 * the audio reading, the facial features and the per-frame emotional state.
 */
module EmotionTypes {
  import opened Wrappers

  /**
   * The seven facial-expression categories, in the order their keys are
   * created (and so the order `Object.entries` lists them). The optional
   * `stressed` and `nervous` keys of the record type are assumed absent.
   */
  datatype Category = Neutral | Happy | Sad | Angry | Fearful | Disgusted | Surprised
  {
    /** Position of the key in `Object.entries` order. */
    function Rank(): nat
    {
      match this
      case Neutral => 0
      case Happy => 1
      case Sad => 2
      case Angry => 3
      case Fearful => 4
      case Disgusted => 5
      case Surprised => 6
    }
  }

  /** All categories in key order. */
  const Categories: seq<Category> := [Neutral, Happy, Sad, Angry, Fearful, Disgusted, Surprised]

  /** One facial probability per category; the values need not sum to 1. */
  datatype EmotionData = EmotionData(
    neutral: real, happy: real, sad: real, angry: real,
    fearful: real, disgusted: real, surprised: real)
  {
    /** The value stored under a category's key. */
    function Prob(c: Category): real
    {
      match c
      case Neutral => neutral
      case Happy => happy
      case Sad => sad
      case Angry => angry
      case Fearful => fearful
      case Disgusted => disgusted
      case Surprised => surprised
    }

    /** The values in `Object.entries` order. */
    function Values(): seq<real>
    {
      [neutral, happy, sad, angry, fearful, disgusted, surprised]
    }

    /** Every probability lies in [0, 1], as the detector produces them. */
    predicate InUnitRange()
    {
      && 0.0 <= neutral <= 1.0 && 0.0 <= happy <= 1.0 && 0.0 <= sad <= 1.0
      && 0.0 <= angry <= 1.0 && 0.0 <= fearful <= 1.0 && 0.0 <= disgusted <= 1.0
      && 0.0 <= surprised <= 1.0
    }
  }

  /**
   * One audio reading. `pitch`, `volume` and `speechRate` are optional in the
   * record type but always filled in by the audio analysis, so they are plain
   * numbers here.
   */
  datatype AudioEmotionData = AudioEmotionData(
    stress: real, confidence: real, excitement: real, nervousness: real,
    pitch: real, volume: real, speechRate: real)

  /** Eye openness, brow tension and mouth tension. */
  datatype FacialFeatures = FacialFeatures(eyeOpenness: real, browTension: real, mouthTension: real)
  {
    predicate InUnitRange()
    {
      0.0 <= eyeOpenness <= 1.0 && 0.0 <= browTension <= 1.0 && 0.0 <= mouthTension <= 1.0
    }
  }

  /** A detected landmark point; its geometry is not interpreted by the engine. */
  datatype Landmark = Landmark(x: real, y: real)

  /**
   * The emotional-trend labels of a frame. `NeutralTrend` is the label
   * 'neutral' returned when no rule applies.
   */
  datatype Trend =
    | HighlyStressed | HighlyAnxious | ModeratelyTense | VeryPositive
    | Positive | Composed | Melancholic | NeutralTrend

  /** The four candidates of the cross-modal argmax, in the order they are listed. */
  datatype Dominant = Confident | Stressed | Nervous | Excited
  {
    function Rank(): nat
    {
      match this
      case Confident => 0
      case Stressed => 1
      case Nervous => 2
      case Excited => 3
    }
  }

  const DominantOrder: seq<Dominant> := [Confident, Stressed, Nervous, Excited]

  /** The optional cross-modal part of a frame. */
  datatype CombinedResult = CombinedResult(overallStress: real, overallConfidence: real, dominantEmotion: Dominant)

  /** One frame of the session history; never changed once created. */
  datatype EmotionState = EmotionState(
    primaryEmotion: Category,
    confidence: real,
    stressLevel: real,
    anxietyLevel: real,
    emotionalTrend: Option<Trend>,
    facialFeatures: Option<FacialFeatures>,
    audioAnalysis: Option<AudioEmotionData>,
    combinedAnalysis: Option<CombinedResult>,
    timestamp: string)
}
