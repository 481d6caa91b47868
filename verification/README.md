# Feedback submission backend — a Dafny model

This project models the write path of a small feedback service. A client
posts free text with a session id. The backend trims and validates the
text, derives an idempotency key from the session and the text, and
answers a repeated submission with the record already stored. A new
submission is classified into one of three sentiment buckets (Good, Bad,
Neutral), saved to the feedback table, and then counted in a single
global statistics record. An admin listing returns the public fields of
every stored record.

The model has six modules: five for source files, plus a shared wrapper module:

- `Wrappers` (`wrappers.dfy`): `Option` and a `Result` whose `Err` carries the message a source function throws.
- `Types` (`types.dfy`): the records of `backend/src/types/feedback.ts`, plus the handlers' status-and-body responses.
- `Comprehend` (`comprehend.dfy`): the classifier glue, as pure functions over the classifier's reply.
- `DynamoDb` (`dynamodb.dfy`): the feedback table and the statistics record, as the class `FeedbackTables`.
  - The class has two fields: `feedback`, a sequence of records, and `stats`, the optional global record.
  - Each store operation is a method on that class.
  - A store failure is a boolean input to each method.
- `FeedbackHandler` (`feedback.ts`'s `postFeedback`):
  - `Submit` is a pure specification from the tables, the request and the collaborators' outcomes to the new tables and the response.
  - `PostFeedback` is the imperative handler, proved to produce exactly what `Submit` says.
  - The coordinator's promises are lemmas about `Submit`.
- `ViewFeedback` (`viewFeedback.ts`): the projection of stored records to their public fields, and the listing handler.

The handler follows **write-then-increment**:

- the record is saved first;
- only after a successful save is the statistics update made, and its failure is only logged;
- there is no compensating decrement, since `reverseStatistics` exists in the store but nothing calls it.

Incrementing first and compensating when the save fails would be an alternative policy; the code does not do that, and neither does the model.

Inputs that the source obtains from outside are parameters:

- the SHA-256 digest is a function-valued parameter `hash: string -> string`, about which nothing is assumed;
- the fresh uuid, the two clock readings, the classifier (as a function from the text it is given to its reply) and the failure of each store call are fields of `Env`.

## Model

| member | source | states |
|---|---|---|
| `Comprehend.ToSentiment` | backend/src/services/comprehend.ts:20-33 | Good exactly when the label is POSITIVE, Bad exactly when it is NEGATIVE, Neutral for NEUTRAL, MIXED, any other label and a missing one |
| `Comprehend.PickConfidence` | backend/src/services/comprehend.ts:35-54 | the confidence is the score of the detected label (Positive, Negative, Neutral or Mixed). It is 0 when the scores block is missing, the label is missing or unrecognised, or the matching score is absent |
| `Comprehend.AnalyzeSentiment` | backend/src/services/comprehend.ts:10-61 | fails with "Failed to analyze sentiment" exactly on a client error; otherwise returns the mapped bucket with the picked confidence |
| `Comprehend.MixedIsNeutralWithMixedScore` | backend/src/services/comprehend.ts:29-51 | a MIXED reply is filed as Neutral with the Mixed score as confidence, not the Neutral score |
| `Comprehend.ConfidenceDependsOnlyOnDetectedScore` | backend/src/services/comprehend.ts:39-53 | two replies with the same known label and the same score for it give the same result, whatever their other scores |
| `Comprehend.UnknownLabelIsNeutralZero` | backend/src/services/comprehend.ts:28-54 | a missing or unrecognised label gives Neutral with confidence 0, whatever the scores |
| `DynamoDb.FindByKey` | backend/src/services/dynamodb.ts:17-35 | a record found has the key and is stored; nothing is found exactly when no stored record has the key |
| `DynamoDb.FindByKeyAppend` | backend/src/services/dynamodb.ts:17-56 | after a record is saved, a lookup finds the earlier match if there was one, else the new record if it has the key, else nothing |
| `DynamoDb.Filter` | backend/src/services/dynamodb.ts:108-132 | every returned record has the requested sentiment, and a record is returned exactly when it is stored with that sentiment |
| `DynamoDb.ZeroStatistics` | backend/src/services/dynamodb.ts:169-177 | the default statistics record has id "global", total 0 and every bucket 0 |
| `DynamoDb.Adjust` | backend/src/services/dynamodb.ts:68-98 | the delta is added to the total and to the bucket of the given sentiment; the other two buckets and the id are unchanged, and the update time is stamped |
| `DynamoDb.AdjustPreservesBalance` | backend/src/services/dynamodb.ts:85-93 | an adjust keeps total == good + bad + neutral |
| `DynamoDb.AfterAdjustBalanced` | backend/src/services/dynamodb.ts:85-98 | adjusting a balanced record, or the all-zero start of a missing one, gives a balanced record |
| `DynamoDb.ReverseUndoesUpdate` | backend/src/services/dynamodb.ts:58-65 | an adjust by -1 after an adjust by +1 on the same bucket restores all four counts and the id |
| `DynamoDb.FeedbackTables.CheckIdempotency` | backend/src/services/dynamodb.ts:17-40 | a store error throws "Failed to check idempotency"; otherwise returns a stored record with the key, or none exactly when no record has it |
| `DynamoDb.FeedbackTables.SaveFeedback` | backend/src/services/dynamodb.ts:43-56 | on success the record is appended and Success returned; a store error throws "Failed to save feedback" and leaves the table as it was; statistics untouched |
| `DynamoDb.FeedbackTables.UpdateStatisticsTable` | backend/src/services/dynamodb.ts:68-104 | never throws; a store error returns Failure with the counters unchanged. Success adds the delta to the total and to exactly the bucket of the sentiment, stamps the time and keeps the counts balanced |
| `DynamoDb.FeedbackTables.UpdateStatistics` | backend/src/services/dynamodb.ts:63-65 | an adjust by +1, with the same failure behaviour |
| `DynamoDb.FeedbackTables.ReverseStatistics` | backend/src/services/dynamodb.ts:58-61 | an adjust by -1, with the same failure behaviour |
| `DynamoDb.FeedbackTables.GetFilteredFeedback` | backend/src/services/dynamodb.ts:108-132 | a store error throws "Failed to get feedback"; otherwise exactly the stored records of the sentiment (the page limit is listed under Left out) |
| `DynamoDb.FeedbackTables.GetAllFeedback` | backend/src/services/dynamodb.ts:134-153 | a store error throws "Failed to get feedback"; otherwise every stored record, so an empty table gives an empty list |
| `DynamoDb.FeedbackTables.GetStatistics` | backend/src/services/dynamodb.ts:156-181 | a store error throws "Failed to get statistics"; otherwise the stored record, or id "global" with all four counts 0 when none exists. On a valid store, every record it returns has id "global" |
| `FeedbackHandler.TrimStart` | backend/src/handlers/feedback.ts:27 | drops only leading whitespace and leaves a result that does not start with whitespace |
| `FeedbackHandler.TrimEnd` | backend/src/handlers/feedback.ts:27 | drops only trailing whitespace and leaves a result that does not end with whitespace |
| `FeedbackHandler.Trim` | backend/src/handlers/feedback.ts:27 | the trimmed text is a slice of the input with only whitespace before and after it, and neither of its ends is whitespace |
| `FeedbackHandler.TrimOfPadded` | backend/src/handlers/feedback.ts:27 | a text with non-whitespace ends, padded with whitespace on both sides, trims back to itself |
| `FeedbackHandler.TrimIsUnique` | backend/src/handlers/feedback.ts:27 | the only slice with whitespace margins and tight ends is the trim |
| `FeedbackHandler.TrimIgnoresSurroundingWhitespace` | backend/src/handlers/feedback.ts:27 | adding whitespace around a text does not change its trim |
| `FeedbackHandler.TrimIdempotent` | backend/src/handlers/feedback.ts:27 | trimming twice equals trimming once |
| `FeedbackHandler.Validate` | backend/src/handlers/feedback.ts:11-54 | the checks run in order and the first failure wins. A missing body gets 400 "Request body is required" and an unparseable one 500. Empty trimmed text or a missing or empty session gets 400 "Text and sessionId are required". Trimmed text over 1000 gets 400 "Text must be 1000 characters or less". Otherwise the request is accepted with the session and the trimmed text. Each case is stated in both directions |
| `FeedbackHandler.LengthBoundary` | backend/src/handlers/feedback.ts:43-54 | a text of exactly 1000 characters after trimming passes; 1001 is rejected as too long |
| `FeedbackHandler.PreimageIsAmbiguous` | backend/src/handlers/feedback.ts:57-59 | the digest's pre-image session + ":" + text is the same for ("a:b", "c") and ("a", "b:c") |
| `FeedbackHandler.Handle` | backend/src/handlers/feedback.ts:57-126 | after validation, given the key and the trimmed text, the answer is 200, 201 or 500. Only 201 changes the tables, and it appends exactly one record and keeps the earlier ones |
| `FeedbackHandler.Submit` | backend/src/handlers/feedback.ts:8-142 | every answer is 200, 201, 400 or 500, and every answer other than 201 leaves both tables unchanged |
| `FeedbackHandler.PostFeedback` | backend/src/handlers/feedback.ts:8-142 | the handler, run against the store object, yields exactly the tables and the response that `Submit` specifies, and keeps the store valid |
| `FeedbackHandler.RejectionCallsNoCollaborator` | backend/src/handlers/feedback.ts:11-54 | a rejected body's answer does not depend on the digest or on any collaborator outcome, and the tables are untouched |
| `FeedbackHandler.SurroundingWhitespaceIsIgnored` | backend/src/handlers/feedback.ts:27-59 | two requests differing only in whitespace around the text have the same outcome, so the same key |
| `FeedbackHandler.ReplayReturnsStoredRecord` | backend/src/handlers/feedback.ts:61-83 | if a record with the key exists, the answer is 200 with its id, text, sentiment, confidence and timestamp. Nothing changes, whatever the classifier and the save would have done |
| `FeedbackHandler.FreshSubmissionIsSavedAndCounted` | backend/src/handlers/feedback.ts:85-126 | a fresh submission appends one record. The record carries the fresh id, the timestamp, the key, the trimmed text and the classifier's sentiment and confidence. The answer is 201 with that record's public fields. The total and the bucket of that same sentiment go up by one, and the other buckets do not change |
| `FeedbackHandler.FailedSaveLeavesCountersAlone` | backend/src/handlers/feedback.ts:98-106 | a failed save answers 500 with both tables, counters included, unchanged |
| `FeedbackHandler.ClassifiesTrimmedText` | backend/src/handlers/feedback.ts:27-96 | a created record holds the trimmed text, and its sentiment and confidence are the classifier's verdict on that trimmed text |
| `FeedbackHandler.DependencyFailureIsServerError` | backend/src/handlers/feedback.ts:128-140 | a failed idempotency check, or a failed classifier call on a new key, answers 500 "Internal server error" with nothing changed |
| `FeedbackHandler.FailedStatisticsStillCreated` | backend/src/handlers/feedback.ts:101-126 | a failed statistics update still answers 201, with the same response as a successful one. The record is saved and the counters are unchanged |
| `FeedbackHandler.ResubmitReturnsFirstAnswer` | backend/src/handlers/feedback.ts:61-99 | when the first answer was 200 or 201 and the second idempotency check does not fail, submitting the same request again returns 200 with the first answer's body, so the same id. Nothing changes, the table holds a record for the key, and exactly one when the first call created it |
| `FeedbackHandler.SubmitKeepsKeysUnique` | backend/src/handlers/feedback.ts:61-99 | when requests run one at a time and each lookup sees every earlier save, a table without duplicate keys never gains one |
| `FeedbackHandler.SubmitKeepsCountersBalanced` | backend/src/handlers/feedback.ts:99-106 | a submission keeps total == good + bad + neutral |
| `FeedbackHandler.TotalTracksRecords` | backend/src/handlers/feedback.ts:98-106 | while no statistics update fails, the total stays equal to the number of stored records |
| `ViewFeedback.ProjectAll` | backend/src/handlers/viewFeedback.ts:11-17 | one output item per record, in the same order. Each item has the record's id, text, sentiment, confidence and timestamp; the item type has no idempotency key |
| `ViewFeedback.ProjectAllAppend` | backend/src/handlers/viewFeedback.ts:11-17 | projecting a concatenation is concatenating the projections |
| `ViewFeedback.GetViewFeedback` | backend/src/handlers/viewFeedback.ts:5-44 | a failed scan answers 500 "Internal server error". Otherwise the answer is 200 with the projection of every stored record in order, and an empty table gives an empty list |
| `ViewFeedback.CreatedItemIsListedLast` | backend/src/handlers/viewFeedback.ts:8-17 | after a submission answered 201, the listing gains exactly one item at the end: the body that the submission answered with |

## Left out

- AWS clients, table names, region and environment variables are not modelled. Only the state changes they cause are.
- DynamoDB's update-expression language is not modelled either. The `ADD`/`SET` update is modelled by its effect.
- SHA-256 is not modelled. The key is `hash(sessionId + ":" + text)` for an arbitrary function `hash`, so no lemma relies on collision resistance. `PreimageIsAmbiguous` shows that the pre-image itself is not injective in the pair.
- `uuidv4` and `new Date()` are not modelled. They are the `freshId`, `createdAt` and `statsTime` fields of `Env`, and the `now` parameter of the store reads.
- JSON parsing and serialisation are not modelled. A parse that throws, a JSON `null` body and a non-null, non-string `text` field are one `Malformed` body, answered 500. A `null` or absent `text` is an absent field and is answered 400, as the source's `?.trim() || ''` does.
- A non-string `sessionId` (a number, say) is not modelled. The source's template literal would stringify it.
- Response headers, including the `GET` in `Access-Control-Allow-Methods` of the listing handler, are not modelled.
- Logging is not modelled.
- `Trim` removes a fixed set of ten whitespace characters, not the full Unicode set that `String.prototype.trim` removes.
- Text length is the number of Dafny characters. JavaScript counts UTF-16 code units, so a character outside the Basic Multilingual Plane counts as two there.
- The model handles one request at a time. The race between two concurrent first submissions with one key is left out. That race can store two records under one key; `SubmitKeepsKeysUnique` holds only for sequential calls whose lookups see every earlier save.
- The increment-then-compensate policy, which the source does not implement, is left out.
- `DynamoDb.FeedbackTables.SaveFeedback`: appends the record. DynamoDB's put replaces a stored item with the same id, and that case is not modelled because ids are fresh uuids.
- `DynamoDb.FindByKey`: returns the first matching record in table order. The index query's `Limit: 1` returns some matching item in an order the model does not fix.
- `DynamoDb.FeedbackTables.GetAllFeedback`: returns the whole table in table order. The scan's order and its page limit are not modelled, and neither is the pagination the source skips.
- `DynamoDb.FeedbackTables.GetFilteredFeedback`: returns every stored record of the sentiment. The source's scan is not paginated either, so past its first page it returns only the matches on that page; the model does not capture the page limit.
- `DynamoDb.FindByKey`: sees every record saved before it. The source looks the key up through a secondary index (`IdempotencyIndex`), which DynamoDB serves eventually consistently, so a lookup right after a save can miss it. `ResubmitReturnsFirstAnswer` and `SubmitKeepsKeysUnique` rely on the lookup seeing every earlier save.
- `DynamoDb.FeedbackTables.UpdateStatisticsTable`: when no statistics record exists yet, the model starts from all-zero counts. DynamoDB's `ADD` would create only the total and the one bucket, leaving the other two buckets absent rather than 0.
- Confidence is a `real` that is passed through unchanged. Floating-point behaviour, such as `NaN || 0` giving 0, is not modelled.
- The dashboard percentages and their formatting are not modelled.
- The statistics handler `backend/src/handlers/statistics.ts` is not part of this model. It imports a `createResponse` that `feedback.ts` does not export.
- The filtered listing handler that the listing tests exercise does not exist in `viewFeedback.ts`, so it is not modelled. `GetFilteredFeedback` is modelled at the store level only.
- Where the store's tests disagree with its code, the model follows the code:
  - the tests expect `updateStatistics` to throw on a store error, but the code returns `Failure`;
  - the tests expect `getAllFeedback` to sort by descending timestamp, but the sort is commented out in the code;
  - the tests expect `saveFeedback` to resolve to `undefined`, but the code returns `Success`;
  - the tests expect `updateStatistics` to resolve to `undefined` on success, but the code returns `Success`.
- The frontend (form, dashboard, session storage, build configuration) is not modelled.
