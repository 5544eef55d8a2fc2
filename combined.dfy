/**
 * The cross-modal combiner: an overall stress and an overall confidence
 * blended from the facial probabilities and the audio reading, and the
 * dominant one of four blended scores.
 */
module Combined {
  import opened Numeric
  import opened EmotionTypes

  /**
   * The score object `{confident, stressed, nervous, excited}`, in the order
   * its keys are written.
   */
  function EmotionScoreTable(video: EmotionData, audio: AudioEmotionData): (scores: seq<real>)
    ensures |scores| == |DominantOrder| == 4
  {
    var overallStress := video.fearful * 40.0 + video.angry * 30.0 + (audio.stress / 100.0) * 30.0;
    var overallConfidence := (1.0 - video.fearful) * 40.0 + (audio.confidence / 100.0) * 60.0;
    [ overallConfidence,
      overallStress,
      video.fearful * 50.0 + (audio.nervousness / 100.0) * 50.0,
      video.happy * 40.0 + (audio.excitement / 100.0) * 60.0 ]
  }

  /** The score the table gives a candidate. */
  function Score(video: EmotionData, audio: AudioEmotionData, d: Dominant): real
  {
    EmotionScoreTable(video, audio)[d.Rank()]
  }

  /**
   * The combined analysis. The two overall scores are the 'stressed' and
   * 'confident' entries of the table; the dominant emotion has a maximal
   * score and, as the reduce keeps its accumulator only when strictly larger,
   * every candidate listed after it scores strictly less.
   */
  function CombinedAnalysis(video: EmotionData, audio: AudioEmotionData): (r: CombinedResult)
    ensures r.overallStress == Score(video, audio, Stressed)
    ensures r.overallConfidence == Score(video, audio, Confident)
    ensures forall d: Dominant :: Score(video, audio, d) <= Score(video, audio, r.dominantEmotion)
    ensures forall d: Dominant :: d.Rank() > r.dominantEmotion.Rank() ==>
      Score(video, audio, d) < Score(video, audio, r.dominantEmotion)
  {
    var scores := EmotionScoreTable(video, audio);
    var i := LastMaxIndex(scores);
    assert forall d: Dominant :: DominantOrder[d.Rank()] == d;
    assert DominantOrder[i].Rank() == i;
    CombinedResult(scores[1], scores[0], DominantOrder[i])
  }

  /**
   * With facial probabilities in [0, 1] and the audio stress in [0, 100], the
   * overall stress fearful * 40 + angry * 30 + stress * 0.3 lies in [0, 100].
   */
  lemma OverallStressWithin(video: EmotionData, audio: AudioEmotionData)
    requires video.InUnitRange() && 0.0 <= audio.stress <= 100.0
    ensures 0.0 <= CombinedAnalysis(video, audio).overallStress <= 100.0
    ensures CombinedAnalysis(video, audio).overallStress
         == video.fearful * 40.0 + video.angry * 30.0 + (audio.stress / 100.0) * 30.0
  {
  }

  /**
   * With facial probabilities in [0, 1] and the audio confidence in [0, 100],
   * the overall confidence (1 - fearful) * 40 + confidence * 0.6 lies in [0, 100].
   */
  lemma OverallConfidenceWithin(video: EmotionData, audio: AudioEmotionData)
    requires video.InUnitRange() && 0.0 <= audio.confidence <= 100.0
    ensures 0.0 <= CombinedAnalysis(video, audio).overallConfidence <= 100.0
    ensures CombinedAnalysis(video, audio).overallConfidence
         == (1.0 - video.fearful) * 40.0 + (audio.confidence / 100.0) * 60.0
  {
  }

  /** All four scores equal: the reduce ends on the last candidate, 'excited'. */
  lemma AllTiedGivesExcited(video: EmotionData, audio: AudioEmotionData)
    requires forall d: Dominant :: Score(video, audio, d) == Score(video, audio, Confident)
    ensures CombinedAnalysis(video, audio).dominantEmotion == Excited
  {
    var r := CombinedAnalysis(video, audio);
    assert Score(video, audio, Excited) == Score(video, audio, r.dominantEmotion);
  }
}
