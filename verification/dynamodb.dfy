/**
 * The feedback table and the global statistics record
 * (backend/src/services/dynamodb.ts). The two tables are fields of one
 * object; a failure of the store client is a boolean input of each
 * operation, and the clock is a string input.
 */
module DynamoDb {
  import opened Wrappers
  import opened Types

  const GlobalId := "global"

  const CheckFailed := "Failed to check idempotency"
  const SaveFailed := "Failed to save feedback"
  const ScanFailed := "Failed to get feedback"
  const StatsReadFailed := "Failed to get statistics"

  /** The contents of both tables at one moment. */
  datatype Tables = Tables(feedback: seq<FeedbackRecord>, stats: Option<Statistics>)

  /** The first record stored under `key`, if any. */
  function FindByKey(records: seq<FeedbackRecord>, key: string): (r: Option<FeedbackRecord>)
    ensures r.Some? ==> r.value in records && r.value.idempotencyKey == key
    ensures r.None? <==> forall i :: 0 <= i < |records| ==> records[i].idempotencyKey != key
  {
    if records == [] then None
    else if records[0].idempotencyKey == key then Some(records[0])
    else FindByKey(records[1..], key)
  }

  /** Appending a record never hides an earlier match, and is found when nothing earlier matches. */
  lemma {:induction false} FindByKeyAppend(records: seq<FeedbackRecord>, x: FeedbackRecord, key: string)
    ensures FindByKey(records + [x], key)
            == if FindByKey(records, key).Some? then FindByKey(records, key)
               else if x.idempotencyKey == key then Some(x)
               else None
  {
    if records != [] {
      assert (records + [x])[1..] == records[1..] + [x];
      FindByKeyAppend(records[1..], x, key);
    }
  }

  /** How many records are stored under `key`. */
  function CountKey(records: seq<FeedbackRecord>, key: string): (n: nat)
    ensures n <= |records|
    ensures n == 0 <==> FindByKey(records, key).None?
  {
    if records == [] then 0
    else (if records[0].idempotencyKey == key then 1 else 0) + CountKey(records[1..], key)
  }

  lemma {:induction false} CountKeyAppend(records: seq<FeedbackRecord>, x: FeedbackRecord, key: string)
    ensures CountKey(records + [x], key) == CountKey(records, key) + (if x.idempotencyKey == key then 1 else 0)
  {
    if records != [] {
      assert (records + [x])[1..] == records[1..] + [x];
      CountKeyAppend(records[1..], x, key);
    }
  }

  /** No two stored records share an idempotency key. */
  ghost predicate UniqueKeys(records: seq<FeedbackRecord>) {
    forall i, j :: 0 <= i < j < |records| ==> records[i].idempotencyKey != records[j].idempotencyKey
  }

  /** The records whose sentiment is `s`, in table order. */
  function Filter(records: seq<FeedbackRecord>, s: Sentiment): (r: seq<FeedbackRecord>)
    ensures |r| <= |records|
    ensures forall i :: 0 <= i < |r| ==> r[i].sentiment == s
    ensures forall x :: x in r <==> x in records && x.sentiment == s
  {
    if records == [] then []
    else if records[0].sentiment == s then [records[0]] + Filter(records[1..], s)
    else Filter(records[1..], s)
  }

  /** The counter that belongs to a sentiment bucket. */
  function Bucket(st: Statistics, s: Sentiment): int {
    match s
    case Good => st.goodCount
    case Bad => st.badCount
    case Neutral => st.neutralCount
  }

  /** The counts agree: the total is the sum of the three buckets. */
  predicate Balanced(st: Statistics) {
    st.totalCount == st.goodCount + st.badCount + st.neutralCount
  }

  /** Two statistics records with the same four counts. */
  predicate SameCounts(a: Statistics, b: Statistics) {
    a.totalCount == b.totalCount && a.goodCount == b.goodCount
    && a.badCount == b.badCount && a.neutralCount == b.neutralCount
  }

  /** The all-zero statistics record the reads fall back to. */
  function ZeroStatistics(now: string): (st: Statistics)
    ensures st.id == GlobalId && Balanced(st)
    ensures st.totalCount == 0 && forall s :: Bucket(st, s) == 0
  {
    Statistics(GlobalId, 0, 0, 0, 0, now)
  }

  /** The stored record, or the all-zero record that an update starts from when none exists. */
  function StoredOrZero(stats: Option<Statistics>, now: string): Statistics {
    stats.GetOr(ZeroStatistics(now))
  }

  /** Add `delta` to the total and to the bucket of `s`, and stamp the update time. */
  function Adjust(st: Statistics, s: Sentiment, delta: int, now: string): (r: Statistics)
    ensures r.id == st.id && r.lastUpdated == now
    ensures r.totalCount == st.totalCount + delta
    ensures Bucket(r, s) == Bucket(st, s) + delta
    ensures forall o :: o != s ==> Bucket(r, o) == Bucket(st, o)
  {
    var st' := st.(totalCount := st.totalCount + delta, lastUpdated := now);
    match s
    case Good => st'.(goodCount := st.goodCount + delta)
    case Bad => st'.(badCount := st.badCount + delta)
    case Neutral => st'.(neutralCount := st.neutralCount + delta)
  }

  /** The statistics record after a successful adjust of the stored (or absent) record. */
  function AfterAdjust(stats: Option<Statistics>, s: Sentiment, delta: int, now: string): Statistics {
    Adjust(StoredOrZero(stats, now), s, delta, now)
  }

  /** An adjust keeps the total equal to the sum of the buckets. */
  lemma AdjustPreservesBalance(st: Statistics, s: Sentiment, delta: int, now: string)
    requires Balanced(st)
    ensures Balanced(Adjust(st, s, delta, now))
  {
  }

  /** An absent record is balanced once adjusted, and a balanced one stays balanced. */
  lemma AfterAdjustBalanced(stats: Option<Statistics>, s: Sentiment, delta: int, now: string)
    requires stats.Some? ==> Balanced(stats.value)
    ensures Balanced(AfterAdjust(stats, s, delta, now))
  {
    AdjustPreservesBalance(StoredOrZero(stats, now), s, delta, now);
  }

  /** reverseStatistics after updateStatistics for the same bucket restores all four counts. */
  lemma ReverseUndoesUpdate(stats: Option<Statistics>, s: Sentiment, t1: string, t2: string)
    ensures SameCounts(AfterAdjust(Some(AfterAdjust(stats, s, 1, t1)), s, -1, t2), StoredOrZero(stats, t1))
    ensures AfterAdjust(Some(AfterAdjust(stats, s, 1, t1)), s, -1, t2).id == StoredOrZero(stats, t1).id
  {
  }

  /** The feedback table and the statistics table, held by one store client. */
  class FeedbackTables {
    var feedback: seq<FeedbackRecord>
    var stats: Option<Statistics>

    /** The statistics record, once it exists, is the one with id "global". */
    ghost predicate Valid()
      reads this
    {
      stats.Some? ==> stats.value.id == GlobalId
    }

    function State(): Tables
      reads this
    {
      Tables(feedback, stats)
    }

    constructor ()
      ensures Valid()
      ensures feedback == [] && stats == None
    {
      feedback := [];
      stats := None;
    }

    /** checkIdempotency: the record stored under `key`, or none; a store error throws. */
    method CheckIdempotency(key: string, storeError: bool) returns (r: Result<Option<FeedbackRecord>, string>)
      ensures storeError ==> r == Err(CheckFailed)
      ensures !storeError ==> r.Ok?
      ensures r.Ok? && r.value.Some? ==> r.value.value in feedback && r.value.value.idempotencyKey == key
      ensures r.Ok? && r.value.None? ==> forall i :: 0 <= i < |feedback| ==> feedback[i].idempotencyKey != key
      ensures r.Ok? ==> r.value == FindByKey(feedback, key)
    {
      if storeError {
        return Err(CheckFailed);
      }
      r := Ok(FindByKey(feedback, key));
    }

    /** saveFeedback: the record is added; a store error throws and leaves the table as it was. */
    method SaveFeedback(record: FeedbackRecord, storeError: bool) returns (r: Result<SuccessFailure, string>)
      modifies this
      ensures stats == old(stats)
      ensures storeError ==> r == Err(SaveFailed) && feedback == old(feedback)
      ensures !storeError ==> r == Ok(Success) && feedback == old(feedback) + [record]
    {
      if storeError {
        return Err(SaveFailed);
      }
      feedback := feedback + [record];
      r := Ok(Success);
    }

    /**
     * updateStatisticsTable: add `direction` to the total and to the
     * bucket of `s`, stamping `now`; it never throws, and a store error
     * leaves the counters as they were.
     */
    method UpdateStatisticsTable(s: Sentiment, direction: int, now: string, storeError: bool) returns (r: SuccessFailure)
      requires Valid()
      modifies this
      ensures Valid()
      ensures feedback == old(feedback)
      ensures storeError ==> r == Failure && stats == old(stats)
      ensures !storeError ==> r == Success && stats == Some(AfterAdjust(old(stats), s, direction, now))
      ensures !storeError ==> stats.value.totalCount == StoredOrZero(old(stats), now).totalCount + direction
      ensures !storeError ==> Bucket(stats.value, s) == Bucket(StoredOrZero(old(stats), now), s) + direction
      ensures !storeError ==> forall o :: o != s ==> Bucket(stats.value, o) == Bucket(StoredOrZero(old(stats), now), o)
      ensures !storeError && (old(stats).Some? ==> Balanced(old(stats).value)) ==> Balanced(stats.value)
    {
      if storeError {
        return Failure;
      }
      if stats.None? || Balanced(stats.value) {
        AfterAdjustBalanced(stats, s, direction, now);
      }
      stats := Some(AfterAdjust(stats, s, direction, now));
      r := Success;
    }

    /** updateStatistics: an adjust by +1. */
    method UpdateStatistics(s: Sentiment, now: string, storeError: bool) returns (r: SuccessFailure)
      requires Valid()
      modifies this
      ensures Valid()
      ensures feedback == old(feedback)
      ensures storeError ==> r == Failure && stats == old(stats)
      ensures !storeError ==> r == Success && stats == Some(AfterAdjust(old(stats), s, 1, now))
    {
      r := UpdateStatisticsTable(s, 1, now, storeError);
    }

    /** reverseStatistics: an adjust by -1. */
    method ReverseStatistics(s: Sentiment, now: string, storeError: bool) returns (r: SuccessFailure)
      requires Valid()
      modifies this
      ensures Valid()
      ensures feedback == old(feedback)
      ensures storeError ==> r == Failure && stats == old(stats)
      ensures !storeError ==> r == Success && stats == Some(AfterAdjust(old(stats), s, -1, now))
    {
      r := UpdateStatisticsTable(s, -1, now, storeError);
    }

    /** getFilteredFeedback: exactly the records of one sentiment; a store error throws. */
    method GetFilteredFeedback(s: Sentiment, storeError: bool) returns (r: Result<seq<FeedbackRecord>, string>)
      ensures storeError ==> r == Err(ScanFailed)
      ensures !storeError ==> r.Ok?
      ensures r.Ok? ==> forall x :: x in r.value <==> x in feedback && x.sentiment == s
      ensures r.Ok? ==> r.value == Filter(feedback, s)
    {
      if storeError {
        return Err(ScanFailed);
      }
      r := Ok(Filter(feedback, s));
    }

    /** getAllFeedback: every stored record; an empty table gives an empty list. */
    method GetAllFeedback(storeError: bool) returns (r: Result<seq<FeedbackRecord>, string>)
      ensures storeError ==> r == Err(ScanFailed)
      ensures !storeError ==> r == Ok(feedback)
    {
      if storeError {
        return Err(ScanFailed);
      }
      r := Ok(feedback);
    }

    /** getStatistics: the stored record, or an all-zero "global" record; a store error throws. */
    method GetStatistics(now: string, storeError: bool) returns (r: Result<Statistics, string>)
      requires Valid()
      ensures r.Ok? ==> r.value.id == GlobalId
      ensures storeError ==> r == Err(StatsReadFailed)
      ensures !storeError && stats.Some? ==> r == Ok(stats.value)
      ensures !storeError && stats.None? ==> r.Ok? && r.value.id == GlobalId && r.value.lastUpdated == now
      ensures !storeError && stats.None? ==>
                r.value.totalCount == 0 && r.value.goodCount == 0 && r.value.badCount == 0 && r.value.neutralCount == 0
    {
      if storeError {
        return Err(StatsReadFailed);
      }
      r := Ok(StoredOrZero(stats, now));
    }
  }
}
