/**
 * The records exchanged by the feedback backend
 * (backend/src/types/feedback.ts) and the HTTP-shaped responses
 * its handlers return.
 */
module Types {

  /** The three sentiment buckets a feedback item is classified into. */
  datatype Sentiment = Good | Bad | Neutral

  /** A stored feedback item, as written to the feedback table. */
  datatype FeedbackRecord = FeedbackRecord(
    id: string,
    idempotencyKey: string,
    text: string,
    sentiment: Sentiment,
    confidence: real,
    timestamp: string)

  /** The public view of a feedback item: no idempotency key. */
  datatype FeedbackResponse = FeedbackResponse(
    id: string,
    text: string,
    sentiment: Sentiment,
    confidence: real,
    timestamp: string)

  /** The singleton aggregate counter record. */
  datatype Statistics = Statistics(
    id: string,
    totalCount: int,
    goodCount: int,
    badCount: int,
    neutralCount: int,
    lastUpdated: string)

  /** The store's two-valued status (an enum in the source). */
  datatype SuccessFailure = Failure | Success

  datatype ResponseBody =
    | ErrorBody(error: string)
    | ItemBody(item: FeedbackResponse)
    | ListBody(items: seq<FeedbackResponse>)

  /** A handler's answer; headers are not modelled. */
  datatype Response = Response(statusCode: int, body: ResponseBody)

  const InternalError := "Internal server error"

  /** The response every handler returns when something it awaited threw. */
  const ServerError := Response(500, ErrorBody(InternalError))

  /** The five public fields of a stored record, in the order the handlers copy them. */
  function Project(r: FeedbackRecord): FeedbackResponse {
    FeedbackResponse(r.id, r.text, r.sentiment, r.confidence, r.timestamp)
  }
}
