/** Feedback on a learner's definition of a word: the cosine similarity of
    the two definitions' embeddings is an input, sorted into one of three
    bands and reported to three decimals. */
module SentenceEval {
  import opened Numeric

  const ExcellentThreshold := 0.85
  const GoodThreshold := 0.65

  const Excellent := "Excellent! Your definition captures the full meaning."
  const GoodAttempt := "Good attempt! You understand the main idea, but refine the details."
  const NotQuite := "Not quite right. Try focusing on the core concept of the word."

  /** The band of a score: 2 for excellent, 1 for a good attempt, 0 otherwise. */
  function Band(score: real): (b: nat)
    ensures b <= 2
    ensures b == 2 <==> score >= ExcellentThreshold
    ensures b == 1 <==> GoodThreshold <= score < ExcellentThreshold
    ensures b == 0 <==> score < GoodThreshold
  {
    if score >= ExcellentThreshold then 2 else if score >= GoodThreshold then 1 else 0
  }

  /** The feedback sentence of a score: exactly one of the three, chosen by its band. */
  function FeedbackFor(score: real): (feedback: string)
    ensures feedback in {Excellent, GoodAttempt, NotQuite}
    ensures feedback == Excellent <==> score >= ExcellentThreshold
    ensures feedback == GoodAttempt <==> GoodThreshold <= score < ExcellentThreshold
    ensures feedback == NotQuite <==> score < GoodThreshold
  {
    if score >= 0.85 then Excellent
    else if score >= 0.65 then GoodAttempt
    else NotQuite
  }

  /** A higher similarity never earns a lower band. */
  lemma BandMonotone(score: real, other: real)
    requires score <= other
    ensures Band(score) <= Band(other)
  {
  }

  datatype Evaluation = Evaluation(similarity: real, feedback: string)

  /** The evaluation of a similarity score: the score rounded to three
      decimals and the feedback of the unrounded score. */
  function Evaluate(score: real): (r: Evaluation)
    ensures score - 0.0005 < r.similarity <= score + 0.0005
    ensures r.feedback == FeedbackFor(score)
    ensures r.similarity == Round3(score)
  {
    Evaluation(Round3(score), FeedbackFor(score))
  }
}
