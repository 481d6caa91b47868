/**
 * The feedback listing handler (backend/src/handlers/viewFeedback.ts):
 * every stored record, reduced to its public fields.
 */
module ViewFeedback {
  import opened Wrappers
  import opened Types
  import opened DynamoDb
  import FeedbackHandler

  /** The records' public fields, one item per record, in the same order. */
  function ProjectAll(records: seq<FeedbackRecord>): (out: seq<FeedbackResponse>)
    ensures |out| == |records|
    ensures forall i :: 0 <= i < |records| ==>
              && out[i].id == records[i].id
              && out[i].text == records[i].text
              && out[i].sentiment == records[i].sentiment
              && out[i].confidence == records[i].confidence
              && out[i].timestamp == records[i].timestamp
  {
    if records == [] then [] else [Project(records[0])] + ProjectAll(records[1..])
  }

  /** The projection of a longer table is the projection of its parts. */
  lemma ProjectAllAppend(a: seq<FeedbackRecord>, b: seq<FeedbackRecord>)
    ensures ProjectAll(a + b) == ProjectAll(a) + ProjectAll(b)
  {
  }

  /** getViewFeedback: 200 with the public fields of every record, or 500 when the scan fails. */
  method GetViewFeedback(db: FeedbackTables, storeError: bool) returns (resp: Response)
    ensures storeError ==> resp == ServerError
    ensures !storeError ==> resp.statusCode == 200 && resp.body.ListBody?
    ensures !storeError ==> |resp.body.items| == |db.feedback|
    ensures !storeError ==> forall i :: 0 <= i < |db.feedback| ==> resp.body.items[i] == Project(db.feedback[i])
    ensures !storeError && db.feedback == [] ==> resp == Response(200, ListBody([]))
  {
    var records := db.GetAllFeedback(storeError);
    if records.Err? {
      return ServerError;
    }
    resp := Response(200, ListBody(ProjectAll(records.value)));
  }

  /**
   * After a submission is answered 201, the listing shows exactly one more
   * item at the end, and it is the body the submission answered with.
   */
  lemma CreatedItemIsListedLast(t: Tables, body: FeedbackHandler.RequestBody, hash: string -> string,
                                env: FeedbackHandler.Env)
    ensures var o := FeedbackHandler.Submit(t, body, hash, env);
            o.response.statusCode == 201 ==>
              o.response.body.ItemBody? && ProjectAll(o.tables.feedback) == ProjectAll(t.feedback) + [o.response.body.item]
  {
    var o := FeedbackHandler.Submit(t, body, hash, env);
    if o.response.statusCode != 201 {
      return;
    }
    var rec := o.tables.feedback[|t.feedback|];
    assert o.tables.feedback == t.feedback + [rec];
    assert o.response.body.item == Project(rec);
    ProjectAllAppend(t.feedback, [rec]);
    assert ProjectAll([rec]) == [Project(rec)] + ProjectAll([]);
  }
}
