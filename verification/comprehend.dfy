/**
 * Sentiment classification glue (backend/src/services/comprehend.ts):
 * the classifier's reply is mapped onto the three sentiment buckets and
 * the confidence of the detected label is picked out. The classifier
 * itself is not modelled; its reply (or its failure) is an input.
 */
module Comprehend {
  import opened Wrappers
  import opened Types

  /** The per-label scores block of a classifier reply; each score may be absent. */
  datatype SentimentScore = SentimentScore(
    positive: Option<real>,
    negative: Option<real>,
    neutral: Option<real>,
    mixed: Option<real>)

  /** What the classifier returns: a label string and a scores block, both optional. */
  datatype DetectSentimentResponse = DetectSentimentResponse(
    sentiment: Option<string>,
    sentimentScore: Option<SentimentScore>)

  /** A call to the classifier either fails in the client or yields a reply. */
  datatype ClassifierCall = ClientError | Replied(response: DetectSentimentResponse)

  datatype SentimentAnalysisResult = SentimentAnalysisResult(sentiment: Sentiment, confidence: real)

  const Positive := "POSITIVE"
  const Negative := "NEGATIVE"
  const NeutralLabel := "NEUTRAL"
  const Mixed := "MIXED"

  const AnalyzeFailed := "Failed to analyze sentiment"

  /** The label maps onto a bucket; everything that is not POSITIVE or NEGATIVE is Neutral. */
  function ToSentiment(detected: Option<string>): (s: Sentiment)
    ensures s == Good <==> detected == Some(Positive)
    ensures s == Bad <==> detected == Some(Negative)
    ensures s == Neutral <==> detected != Some(Positive) && detected != Some(Negative)
  {
    if detected == Some(Positive) then Good
    else if detected == Some(Negative) then Bad
    else Neutral
  }

  /** A score that is absent counts as zero. */
  function ScoreOrZero(score: Option<real>): real {
    score.GetOr(0.0)
  }

  /** The score the reply gives for a label it knows, if it knows the label. */
  function ScoreOfLabel(detected: string, scores: SentimentScore): Option<Option<real>> {
    if detected == Positive then Some(scores.positive)
    else if detected == Negative then Some(scores.negative)
    else if detected == NeutralLabel then Some(scores.neutral)
    else if detected == Mixed then Some(scores.mixed)
    else None
  }

  /** The confidence reported for a reply: the score of the detected label, or zero. */
  function PickConfidence(detected: Option<string>, scores: Option<SentimentScore>): (c: real)
    ensures scores.None? ==> c == 0.0
    ensures detected.None? ==> c == 0.0
    ensures detected.Some? && scores.Some? && ScoreOfLabel(detected.value, scores.value).None? ==> c == 0.0
    ensures detected.Some? && scores.Some? && ScoreOfLabel(detected.value, scores.value).Some? ==>
              c == ScoreOrZero(ScoreOfLabel(detected.value, scores.value).value)
  {
    if scores.None? then 0.0
    else if detected == Some(Positive) then ScoreOrZero(scores.value.positive)
    else if detected == Some(Negative) then ScoreOrZero(scores.value.negative)
    else if detected == Some(NeutralLabel) then ScoreOrZero(scores.value.neutral)
    else if detected == Some(Mixed) then ScoreOrZero(scores.value.mixed)
    else 0.0
  }

  /** analyzeSentiment: a client error becomes the thrown message, a reply is mapped. */
  function AnalyzeSentiment(call: ClassifierCall): (r: Result<SentimentAnalysisResult, string>)
    ensures r.Err? <==> call.ClientError?
    ensures r.Err? ==> r.error == AnalyzeFailed
    ensures r.Ok? ==> r.value.sentiment == ToSentiment(call.response.sentiment)
    ensures r.Ok? ==> r.value.confidence == PickConfidence(call.response.sentiment, call.response.sentimentScore)
  {
    match call
    case ClientError => Err(AnalyzeFailed)
    case Replied(resp) =>
      Ok(SentimentAnalysisResult(ToSentiment(resp.sentiment), PickConfidence(resp.sentiment, resp.sentimentScore)))
  }

  /**
   * A MIXED reply is filed as Neutral, but its confidence is the Mixed
   * score, not the Neutral one.
   */
  lemma MixedIsNeutralWithMixedScore(scores: SentimentScore)
    requires scores.mixed.Some?
    ensures AnalyzeSentiment(Replied(DetectSentimentResponse(Some(Mixed), Some(scores))))
            == Ok(SentimentAnalysisResult(Neutral, scores.mixed.value))
  {
  }

  /**
   * The confidence never comes from a score other than that of the
   * detected label: changing any other score leaves the result alone.
   */
  lemma ConfidenceDependsOnlyOnDetectedScore(detected: string, a: SentimentScore, b: SentimentScore)
    requires ScoreOfLabel(detected, a).Some? && ScoreOfLabel(detected, a) == ScoreOfLabel(detected, b)
    ensures AnalyzeSentiment(Replied(DetectSentimentResponse(Some(detected), Some(a))))
            == AnalyzeSentiment(Replied(DetectSentimentResponse(Some(detected), Some(b))))
  {
  }

  /** An unrecognised or missing label gives Neutral with confidence zero, whatever the scores. */
  lemma UnknownLabelIsNeutralZero(detected: Option<string>, scores: Option<SentimentScore>)
    requires detected.None? || ScoreOfLabel(detected.value, SentimentScore(None, None, None, None)).None?
    ensures AnalyzeSentiment(Replied(DetectSentimentResponse(detected, scores)))
            == Ok(SentimentAnalysisResult(Neutral, 0.0))
  {
  }
}
