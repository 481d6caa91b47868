/**
 * The feedback submission coordinator (backend/src/handlers/feedback.ts).
 *
 * `Submit` is the specification: it maps the tables before a request,
 * the request body and the outcomes of the collaborators to the tables
 * after it and the response. `PostFeedback` runs the same steps against
 * a `FeedbackTables` object and is proved to agree with `Submit`. The
 * lemmas state what the coordinator promises in terms of `Submit`.
 *
 * The policy is write-then-increment: the record is saved first and the
 * counters are bumped only after a successful save; there is no
 * compensating decrement.
 */
module FeedbackHandler {
  import opened Wrappers
  import opened Types
  import opened Comprehend
  import opened DynamoDb

  const MaxTextLength := 1000

  const BodyRequired := "Request body is required"
  const FieldsRequired := "Text and sessionId are required"
  const TextTooLong := "Text must be 1000 characters or less"

  // ---------------------------------------------------------------------
  // Trimming

  /** The whitespace that trimming removes (a fixed subset of the Unicode set). */
  predicate IsWhitespace(c: char) {
    c == ' ' || c == '\t' || c == '\n' || c == '\r'
    || c == '\U{000B}' || c == '\U{000C}' || c == '\U{00A0}'
    || c == '\U{2028}' || c == '\U{2029}' || c == '\U{FEFF}'
  }

  predicate AllWhitespace(s: string) {
    forall k :: 0 <= k < |s| ==> IsWhitespace(s[k])
  }

  /** `r` sits at offset `i` of `s` with only whitespace before and after it. */
  predicate TrimmedAt(s: string, i: nat, r: string) {
    i + |r| <= |s| && r == s[i..i + |r|] && AllWhitespace(s[..i]) && AllWhitespace(s[i + |r|..])
  }

  /** Neither end of `r` is whitespace. */
  predicate TightEnds(r: string) {
    r != [] ==> !IsWhitespace(r[0]) && !IsWhitespace(r[|r| - 1])
  }

  function TrimStart(s: string): (r: string)
    ensures |r| <= |s| && r == s[|s| - |r|..]
    ensures AllWhitespace(s[..|s| - |r|])
    ensures r != [] ==> !IsWhitespace(r[0])
  {
    if s != [] && IsWhitespace(s[0]) then TrimStart(s[1..]) else s
  }

  function TrimEnd(s: string): (r: string)
    ensures |r| <= |s| && r == s[..|r|]
    ensures AllWhitespace(s[|r|..])
    ensures r != [] ==> !IsWhitespace(r[|r| - 1])
  {
    if s != [] && IsWhitespace(s[|s| - 1]) then TrimEnd(s[..|s| - 1]) else s
  }

  /** String.prototype.trim over the whitespace above. */
  function Trim(s: string): (r: string)
    ensures exists i :: TrimmedAt(s, i, r)
    ensures TightEnds(r)
  {
    var t := TrimStart(s);
    var r := TrimEnd(t);
    TrimmedAtParts(s, t, r);
    r
  }

  /** Stripping a whitespace prefix and then a whitespace suffix leaves a trimmed core. */
  lemma TrimmedAtParts(s: string, t: string, r: string)
    requires |t| <= |s| && t == s[|s| - |t|..] && AllWhitespace(s[..|s| - |t|])
    requires t != [] ==> !IsWhitespace(t[0])
    requires |r| <= |t| && r == t[..|r|] && AllWhitespace(t[|r|..])
    requires r != [] ==> !IsWhitespace(r[|r| - 1])
    ensures exists i :: TrimmedAt(s, i, r)
    ensures TightEnds(r)
  {
    var i := |s| - |t|;
    assert s[i..i + |r|] == r;
    assert s[i + |r|..] == t[|r|..];
    assert TrimmedAt(s, i, r);
    assert r != [] ==> r[0] == t[0];
  }

  lemma {:induction false} TrimStartSkipsWhitespace(pre: string, x: string)
    requires AllWhitespace(pre)
    ensures TrimStart(pre + x) == TrimStart(x)
  {
    if pre != [] {
      assert (pre + x)[0] == pre[0];
      assert (pre + x)[1..] == pre[1..] + x;
      TrimStartSkipsWhitespace(pre[1..], x);
    } else {
      assert pre + x == x;
    }
  }

  lemma {:induction false} TrimEndSkipsWhitespace(x: string, post: string)
    requires AllWhitespace(post)
    ensures TrimEnd(x + post) == TrimEnd(x)
  {
    if post != [] {
      var n := |post| - 1;
      assert (x + post)[|x + post| - 1] == post[n];
      assert (x + post)[..|x + post| - 1] == x + post[..n];
      TrimEndSkipsWhitespace(x, post[..n]);
    } else {
      assert x + post == x;
    }
  }

  lemma AllWhitespaceAppend(a: string, b: string)
    requires AllWhitespace(a) && AllWhitespace(b)
    ensures AllWhitespace(a + b)
  {
  }

  /** A text with tight ends, padded with whitespace on both sides, trims back to itself. */
  lemma TrimOfPadded(pre: string, m: string, post: string)
    requires AllWhitespace(pre) && AllWhitespace(post) && TightEnds(m)
    ensures Trim(pre + m + post) == m
  {
    assert pre + m + post == pre + (m + post);
    TrimStartSkipsWhitespace(pre, m + post);
    if m == [] {
      assert m + post == post + [];
      TrimStartSkipsWhitespace(post, []);
    } else {
      assert (m + post)[0] == m[0];
      assert TrimStart(m + post) == m + post;
      TrimEndSkipsWhitespace(m, post);
    }
  }

  lemma SplitAround(s: string, i: nat, m: string)
    requires TrimmedAt(s, i, m)
    ensures s == s[..i] + m + s[i + |m|..]
  {
  }

  /** What sits between whitespace margins and has tight ends is exactly the trim. */
  lemma TrimIsUnique(s: string, i: nat, m: string)
    requires TrimmedAt(s, i, m) && TightEnds(m)
    ensures Trim(s) == m
  {
    SplitAround(s, i, m);
    TrimOfPadded(s[..i], m, s[i + |m|..]);
  }

  lemma Regroup(a: string, b: string, c: string, d: string, e: string)
    ensures a + (b + c + d) + e == (a + b) + c + (d + e)
  {
  }

  /** Trimming ignores whitespace added around the text. */
  lemma TrimIgnoresSurroundingWhitespace(pre: string, s: string, post: string)
    requires AllWhitespace(pre) && AllWhitespace(post)
    ensures Trim(pre + s + post) == Trim(s)
  {
    var r := Trim(s);
    var i: nat :| TrimmedAt(s, i, r);
    var left, right := s[..i], s[i + |r|..];
    SplitAround(s, i, r);
    AllWhitespaceAppend(pre, left);
    AllWhitespaceAppend(right, post);
    Regroup(pre, left, r, right, post);
    TrimOfPadded(pre + left, r, right + post);
  }

  /** Trimming twice is trimming once. */
  lemma TrimIdempotent(s: string)
    ensures Trim(Trim(s)) == Trim(s)
  {
  }

  // ---------------------------------------------------------------------
  // Requests and validation

  /**
   * The request body as the handler sees it:
   * `Missing` is a null or empty body; `Malformed` is a body on which
   * JSON.parse or the call to trim throws (not JSON, a JSON null, a
   * non-null text that is not a string); `Json` carries the two fields,
   * each possibly absent (a null text is absent).
   */
  datatype RequestBody =
    | Missing
    | Malformed
    | Json(text: Option<string>, sessionId: Option<string>)

  /** What the handler does with the text field: trim it, an absent one is empty. */
  function TrimmedText(text: Option<string>): string {
    if text.Some? then Trim(text.value) else ""
  }

  predicate HasSession(sessionId: Option<string>) {
    sessionId.Some? && sessionId.value != ""
  }

  datatype Validation = Rejected(response: Response) | Accepted(sessionId: string, text: string)

  /** The checks made before any collaborator is called, in order; the first failure wins. */
  function Validate(body: RequestBody): (v: Validation)
    ensures v == Rejected(Response(400, ErrorBody(BodyRequired))) <==> body.Missing?
    ensures v == Rejected(ServerError) <==> body.Malformed?
    ensures v == Rejected(Response(400, ErrorBody(FieldsRequired))) <==>
              body.Json? && (TrimmedText(body.text) == "" || !HasSession(body.sessionId))
    ensures v == Rejected(Response(400, ErrorBody(TextTooLong))) <==>
              body.Json? && TrimmedText(body.text) != "" && HasSession(body.sessionId)
              && |TrimmedText(body.text)| > MaxTextLength
    ensures v.Accepted? <==>
              body.Json? && TrimmedText(body.text) != "" && HasSession(body.sessionId)
              && |TrimmedText(body.text)| <= MaxTextLength
    ensures v.Accepted? ==> Some(v.sessionId) == body.sessionId && v.text == TrimmedText(body.text)
  {
    match body
    case Missing => Rejected(Response(400, ErrorBody(BodyRequired)))
    case Malformed => Rejected(ServerError)
    case Json(text, sessionId) =>
      var trimmed := TrimmedText(text);
      if trimmed == "" || !HasSession(sessionId) then Rejected(Response(400, ErrorBody(FieldsRequired)))
      else if |trimmed| > MaxTextLength then Rejected(Response(400, ErrorBody(TextTooLong)))
      else Accepted(sessionId.value, trimmed)
  }

  /** The string the idempotency key is a digest of. */
  function KeyPreimage(sessionId: string, text: string): string {
    sessionId + ":" + text
  }

  /**
   * The pre-image does not determine the pair it came from: the digest
   * alone cannot tell these two submissions apart.
   */
  lemma PreimageIsAmbiguous()
    ensures KeyPreimage("a:b", "c") == KeyPreimage("a", "b:c")
    ensures ("a:b", "c") != ("a", "b:c")
  {
  }

  // ---------------------------------------------------------------------
  // The submission, as a function of its inputs

  /**
   * Everything the handler learns from outside: the fresh id and the
   * record's timestamp, the failure flags of the store calls, the
   * classifier (the reply it gives for each text it is asked about), and
   * the clock read by the statistics update.
   */
  datatype Env = Env(
    freshId: string,
    createdAt: string,
    checkFails: bool,
    classify: string -> ClassifierCall,
    saveFails: bool,
    statsFails: bool,
    statsTime: string)

  datatype Outcome = Outcome(tables: Tables, response: Response)

  /** The record a fresh submission saves. */
  function NewRecord(key: string, text: string, analysis: SentimentAnalysisResult, env: Env): FeedbackRecord {
    FeedbackRecord(env.freshId, key, text, analysis.sentiment, analysis.confidence, env.createdAt)
  }

  /** The steps after validation, given the key and the trimmed text: look up, classify, save, count. */
  function Handle(t: Tables, key: string, text: string, env: Env): (o: Outcome)
    ensures o.response.statusCode in {200, 201, 500}
    ensures o.response.statusCode != 201 ==> o.tables == t
    ensures o.response.statusCode == 201 ==>
              |o.tables.feedback| == |t.feedback| + 1 && o.tables.feedback[..|t.feedback|] == t.feedback
  {
    if env.checkFails then Outcome(t, ServerError)
    else match FindByKey(t.feedback, key)
    case Some(existing) => Outcome(t, Response(200, ItemBody(Project(existing))))
    case None =>
      match AnalyzeSentiment(env.classify(text))
      case Err(_) => Outcome(t, ServerError)
      case Ok(analysis) =>
        var record := NewRecord(key, text, analysis, env);
        if env.saveFails then Outcome(t, ServerError)
        else
          var stats := if env.statsFails then t.stats else Some(AfterAdjust(t.stats, record.sentiment, 1, env.statsTime));
          Outcome(Tables(t.feedback + [record], stats), Response(201, ItemBody(Project(record))))
  }

  /** postFeedback, on values: the tables after the request and the response. */
  function Submit(t: Tables, body: RequestBody, hash: string -> string, env: Env): (o: Outcome)
    ensures o.response.statusCode in {200, 201, 400, 500}
    ensures o.response.statusCode != 201 ==> o.tables == t
  {
    match Validate(body)
    case Rejected(resp) => Outcome(t, resp)
    case Accepted(sessionId, text) => Handle(t, hash(KeyPreimage(sessionId, text)), text, env)
  }

  // ---------------------------------------------------------------------
  // The handler

  /** postFeedback: run the steps in order against the store, stopping at the first failure. */
  method PostFeedback(db: FeedbackTables, body: RequestBody, hash: string -> string, env: Env)
    returns (resp: Response)
    requires db.Valid()
    modifies db
    ensures db.Valid()
    ensures Outcome(db.State(), resp) == Submit(old(db.State()), body, hash, env)
  {
    ghost var t0 := db.State();
    if body.Missing? {
      return Response(400, ErrorBody(BodyRequired));
    }
    if body.Malformed? {
      return ServerError;
    }
    // the parsed request's text is replaced by its trimmed form
    var text := TrimmedText(body.text);
    if text == "" || body.sessionId.None? || body.sessionId.value == "" {
      assert Validate(body) == Rejected(Response(400, ErrorBody(FieldsRequired)));
      return Response(400, ErrorBody(FieldsRequired));
    }
    if |text| > MaxTextLength {
      assert Validate(body) == Rejected(Response(400, ErrorBody(TextTooLong)));
      return Response(400, ErrorBody(TextTooLong));
    }
    var sessionId := body.sessionId.value;
    assert Validate(body) == Accepted(sessionId, text);
    var key := hash(KeyPreimage(sessionId, text));

    var existing := db.CheckIdempotency(key, env.checkFails);
    if existing.Err? {
      return ServerError;
    }
    if existing.value.Some? {
      assert FindByKey(t0.feedback, key) == existing.value;
      return Response(200, ItemBody(Project(existing.value.value)));
    }
    assert FindByKey(t0.feedback, key).None?;

    var analysis := AnalyzeSentiment(env.classify(text));
    if analysis.Err? {
      return ServerError;
    }
    var record := NewRecord(key, text, analysis.value, env);

    var saved := db.SaveFeedback(record, env.saveFails);
    if saved.Err? {
      return ServerError;
    }
    assert db.feedback == t0.feedback + [record];
    // a failed statistics update is only logged
    var _ := db.UpdateStatistics(record.sentiment, env.statsTime, env.statsFails);
    assert Handle(t0, key, text, env).tables == db.State();

    resp := Response(201, ItemBody(Project(record)));
  }

  // ---------------------------------------------------------------------
  // What the coordinator promises

  /**
   * A rejected body is answered without any collaborator: the response
   * does not depend on the digest or on any collaborator outcome, and the
   * tables are untouched.
   */
  lemma RejectionCallsNoCollaborator(t: Tables, body: RequestBody, h1: string -> string, e1: Env,
                                     h2: string -> string, e2: Env)
    requires Validate(body).Rejected?
    ensures Submit(t, body, h1, e1) == Submit(t, body, h2, e2) == Outcome(t, Validate(body).response)
  {
  }

  /** Exactly 1000 characters after trimming is accepted, 1001 is rejected. */
  lemma LengthBoundary(text: string, sessionId: string)
    requires sessionId != "" && TightEnds(text)
    ensures |text| == MaxTextLength ==> Validate(Json(Some(text), Some(sessionId))).Accepted?
    ensures |text| == MaxTextLength + 1 ==>
              Validate(Json(Some(text), Some(sessionId))) == Rejected(Response(400, ErrorBody(TextTooLong)))
  {
  }

  /**
   * Requests that differ only in whitespace around the text are the same
   * request: same validation, same key, same outcome.
   */
  lemma SurroundingWhitespaceIsIgnored(t: Tables, pre: string, text: string, post: string,
                                       sessionId: Option<string>, hash: string -> string, env: Env)
    requires AllWhitespace(pre) && AllWhitespace(post)
    ensures Submit(t, Json(Some(pre + text + post), sessionId), hash, env)
            == Submit(t, Json(Some(text), sessionId), hash, env)
  {
    TrimIgnoresSurroundingWhitespace(pre, text, post);
    assert Validate(Json(Some(pre + text + post), sessionId)) == Validate(Json(Some(text), sessionId));
  }

  /**
   * Idempotent replay: when a record with the key is stored, the answer is
   * 200 with its public fields, whatever the classifier and the save would
   * have done, and nothing changes.
   */
  lemma ReplayReturnsStoredRecord(t: Tables, key: string, text: string, env: Env)
    requires !env.checkFails && FindByKey(t.feedback, key).Some?
    ensures Handle(t, key, text, env).tables == t
    ensures Handle(t, key, text, env).response == Response(200, ItemBody(Project(FindByKey(t.feedback, key).value)))
    ensures Handle(t, key, text, env).response.body.item.id == FindByKey(t.feedback, key).value.id
  {
  }

  /**
   * A fresh submission saves one record carrying the key, the trimmed
   * text and the classifier's verdict, answers 201 with that record's
   * public fields, and counts it in the bucket of that same sentiment.
   */
  lemma FreshSubmissionIsSavedAndCounted(t: Tables, key: string, text: string, env: Env)
    requires !env.checkFails && FindByKey(t.feedback, key).None?
    requires env.classify(text).Replied? && !env.saveFails && !env.statsFails
    ensures var o := Handle(t, key, text, env);
            var rec := o.tables.feedback[|t.feedback|];
            && o.response == Response(201, ItemBody(Project(rec)))
            && o.tables.feedback == t.feedback + [rec]
            && rec.id == env.freshId && rec.timestamp == env.createdAt
            && rec.idempotencyKey == key && rec.text == text
            && rec.sentiment == ToSentiment(env.classify(text).response.sentiment)
            && rec.confidence == PickConfidence(env.classify(text).response.sentiment, env.classify(text).response.sentimentScore)
            && o.tables.stats.Some?
            && o.tables.stats.value.totalCount == StoredOrZero(t.stats, env.statsTime).totalCount + 1
            && Bucket(o.tables.stats.value, rec.sentiment) == Bucket(StoredOrZero(t.stats, env.statsTime), rec.sentiment) + 1
            && (forall s :: s != rec.sentiment ==>
                  Bucket(o.tables.stats.value, s) == Bucket(StoredOrZero(t.stats, env.statsTime), s))
  {
    var o := Handle(t, key, text, env);
    assert o.tables.feedback[|t.feedback|] == o.tables.feedback[|o.tables.feedback| - 1];
  }

  /**
   * A failed save answers 500 and, coming before the statistics update,
   * leaves the counters (and the feedback table) as they were.
   */
  lemma FailedSaveLeavesCountersAlone(t: Tables, key: string, text: string, env: Env)
    requires !env.checkFails && FindByKey(t.feedback, key).None?
    requires env.classify(text).Replied? && env.saveFails
    ensures Handle(t, key, text, env) == Outcome(t, ServerError)
  {
  }

  /**
   * The classifier is asked about the trimmed text: a created record holds
   * the trimmed text and the verdict the classifier gives for exactly that
   * text, whatever it would say about the text as posted.
   */
  lemma ClassifiesTrimmedText(t: Tables, raw: string, sid: string, hash: string -> string, env: Env)
    ensures var o := Submit(t, Json(Some(raw), Some(sid)), hash, env);
            o.response.statusCode == 201 ==>
              && |o.tables.feedback| == |t.feedback| + 1
              && env.classify(Trim(raw)).Replied?
              && o.tables.feedback[|t.feedback|].text == Trim(raw)
              && o.tables.feedback[|t.feedback|].sentiment == ToSentiment(env.classify(Trim(raw)).response.sentiment)
              && o.tables.feedback[|t.feedback|].confidence
                 == PickConfidence(env.classify(Trim(raw)).response.sentiment, env.classify(Trim(raw)).response.sentimentScore)
  {
    var o := Submit(t, Json(Some(raw), Some(sid)), hash, env);
    if o.response.statusCode == 201 {
      var v := Validate(Json(Some(raw), Some(sid)));
      assert v.Accepted? && v.text == Trim(raw);
      var rec := o.tables.feedback[|t.feedback|];
      assert o.tables.feedback == t.feedback + [rec];
    }
  }

  /** A failed idempotency check, or a failed classifier call on a new key, is a 500 with no change. */
  lemma DependencyFailureIsServerError(t: Tables, key: string, text: string, env: Env)
    requires env.checkFails || (FindByKey(t.feedback, key).None? && env.classify(text).ClientError?)
    ensures Handle(t, key, text, env) == Outcome(t, ServerError)
  {
  }

  /** A statistics update that fails still answers 201, and only the feedback table changes. */
  lemma FailedStatisticsStillCreated(t: Tables, key: string, text: string, env: Env)
    requires !env.checkFails && FindByKey(t.feedback, key).None?
    requires env.classify(text).Replied? && !env.saveFails && env.statsFails
    ensures Handle(t, key, text, env).response == Handle(t, key, text, env.(statsFails := false)).response
    ensures Handle(t, key, text, env).response.statusCode == 201
    ensures Handle(t, key, text, env).tables.stats == t.stats
    ensures Handle(t, key, text, env).tables.feedback == Handle(t, key, text, env.(statsFails := false)).tables.feedback
    ensures |Handle(t, key, text, env).tables.feedback| == |t.feedback| + 1
  {
  }

  /**
   * Submitting the same request twice: when the first answer is 200 or
   * 201, the second is 200 with the first answer's body (so the same id),
   * nothing changes, and a record created by the first call is the only
   * one under its key.
   */
  lemma {:induction false} ResubmitReturnsFirstAnswer(t: Tables, body: RequestBody, hash: string -> string,
                                                      e1: Env, e2: Env)
    requires !e2.checkFails
    ensures var o1 := Submit(t, body, hash, e1);
            o1.response.statusCode in {200, 201} ==>
              && Submit(o1.tables, body, hash, e2) == Outcome(o1.tables, Response(200, o1.response.body))
              && Validate(body).Accepted?
              && CountKey(o1.tables.feedback, hash(KeyPreimage(Validate(body).sessionId, Validate(body).text))) >= 1
              && (o1.response.statusCode == 201 ==>
                    CountKey(o1.tables.feedback, hash(KeyPreimage(Validate(body).sessionId, Validate(body).text))) == 1)
  {
    var o1 := Submit(t, body, hash, e1);
    if o1.response.statusCode == 201 {
      var v := Validate(body);
      var key := hash(KeyPreimage(v.sessionId, v.text));
      var analysis := AnalyzeSentiment(e1.classify(v.text)).value;
      var rec := NewRecord(key, v.text, analysis, e1);
      assert o1.tables.feedback == t.feedback + [rec];
      FindByKeyAppend(t.feedback, rec, key);
      CountKeyAppend(t.feedback, rec, key);
    }
  }

  /** The store never holds two records under one key when requests run one at a time. */
  lemma SubmitKeepsKeysUnique(t: Tables, body: RequestBody, hash: string -> string, env: Env)
    requires UniqueKeys(t.feedback)
    ensures UniqueKeys(Submit(t, body, hash, env).tables.feedback)
  {
    var o := Submit(t, body, hash, env);
    if o.response.statusCode == 201 {
      var rec := o.tables.feedback[|t.feedback|];
      assert o.tables.feedback == t.feedback + [rec];
      assert FindByKey(t.feedback, rec.idempotencyKey).None?;
    }
  }

  /** A submission keeps the counters balanced: total is the sum of the buckets. */
  lemma SubmitKeepsCountersBalanced(t: Tables, body: RequestBody, hash: string -> string, env: Env)
    requires t.stats.Some? ==> Balanced(t.stats.value)
    ensures var o := Submit(t, body, hash, env);
            o.tables.stats.Some? ==> Balanced(o.tables.stats.value)
  {
    var o := Submit(t, body, hash, env);
    if o.response.statusCode == 201 && !env.statsFails {
      var rec := o.tables.feedback[|t.feedback|];
      AfterAdjustBalanced(t.stats, rec.sentiment, 1, env.statsTime);
    }
  }

  /** The total of the counters, reading an absent record as zero. */
  function Total(stats: Option<Statistics>): int {
    if stats.Some? then stats.value.totalCount else 0
  }

  /**
   * While no statistics update fails, the total counts the stored records:
   * a submission keeps `Total == |feedback|`.
   */
  lemma TotalTracksRecords(t: Tables, body: RequestBody, hash: string -> string, env: Env)
    requires !env.statsFails && Total(t.stats) == |t.feedback|
    ensures var o := Submit(t, body, hash, env);
            Total(o.tables.stats) == |o.tables.feedback|
  {
  }
}
