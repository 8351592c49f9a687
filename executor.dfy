/**
 * `persistBatchFn` of the persister (pkg/db/postgresql/server.go, lines 157-194):
 * one transactional commit attempt of a batch.
 *
 * The pool, the transaction and the batch results are foreign calls; they are
 * replaced by a `StoreResponse`, the answers the store gives to that attempt.
 */
module Executor {
  import opened Options
  import opened Records

  /** The message of the error that ends a batch's results normally. */
  const NO_QUERY_RESULT: string := "no result"

  /** What one call of `batchResults.Query()` reports. */
  datatype QueryResult = RowsReturned | QueryFailed(message: string)

  /**
   * The store's answers to one commit attempt: the error of `Begin`, the
   * results of the successive `Query()` calls, and the error of `Commit`.
   */
  datatype StoreResponse = StoreResponse(
    beginError: Option<string>,
    results: seq<QueryResult>,
    commitError: Option<string>)

  /** How a commit attempt ended. `failedAt` and `count` count `Query()` calls. */
  datatype FlushOutcome =
    | Skipped                                 // empty batch: no transaction at all
    | BeginFailed(message: string)
    | Aborted(failedAt: nat, message: string) // a real error before the sentinel: no commit
    | Committed(count: nat)
    | CommitFailed(count: nat, message: string)
  {
    predicate ReachedCommit() {
      Committed? || CommitFailed?
    }
  }

  /**
   * The answer to the `k`-th `Query()` call (from 0). Once the recorded
   * results run out the driver answers with the "no result" sentinel.
   */
  function QueryAt(db: StoreResponse, k: nat): QueryResult {
    if k < |db.results| then db.results[k] else QueryFailed(NO_QUERY_RESULT)
  }

  /** The index of the first `Query()` call, from `from` on, that reports an error. */
  function FirstFailure(db: StoreResponse, from: nat): (k: nat)
    ensures from <= k
    ensures QueryAt(db, k).QueryFailed?
    ensures forall j :: from <= j < k ==> QueryAt(db, j) == RowsReturned
    decreases |db.results| - from
  {
    if QueryAt(db, from).QueryFailed? then from else FirstFailure(db, from + 1)
  }

  /** The outcome the executor reaches on `batch` when the store answers `db`. */
  function FlushResult(batch: seq<Op>, db: StoreResponse): FlushOutcome {
    if |batch| == 0 then Skipped
    else if db.beginError.Some? then BeginFailed(db.beginError.value)
    else
      var k := FirstFailure(db, 0);
      var message := QueryAt(db, k).message;
      if message != NO_QUERY_RESULT then Aborted(k + 1, message)
      else if db.commitError.Some? then CommitFailed(k, db.commitError.value)
      else Committed(k)
  }

  /**
   * The executor: skips an empty batch, begins a transaction, pulls results
   * until the first error and commits only when that error is the sentinel.
   */
  method PersistBatch(batch: seq<Op>, db: StoreResponse) returns (outcome: FlushOutcome)
    ensures outcome == FlushResult(batch, db)
  {
    if |batch| == 0 {
      return Skipped;
    }
    if db.beginError.Some? {
      return BeginFailed(db.beginError.value);
    }
    var qerr: Option<string> := None;
    var cnt: nat := 0;
    while qerr.None?
      invariant forall j :: 0 <= j < cnt && qerr.None? ==> QueryAt(db, j) == RowsReturned
      invariant qerr.Some? ==> 0 < cnt && FirstFailure(db, 0) == cnt - 1
      invariant qerr.Some? ==> qerr.value == QueryAt(db, cnt - 1).message
      invariant qerr.None? ==> cnt <= |db.results|
      decreases |db.results| + 1 - cnt, qerr.None?
    {
      var r := QueryAt(db, cnt);
      if r.QueryFailed? {
        qerr := Some(r.message);
        FirstFailureIsFirst(db, 0, cnt);
      }
      cnt := cnt + 1;
    }
    if qerr.value != NO_QUERY_RESULT {
      return Aborted(cnt, qerr.value);
    }
    if db.commitError.Some? {
      return CommitFailed(cnt - 1, db.commitError.value);
    }
    return Committed(cnt - 1);
  }

  /** A failing call preceded only by successful ones is the first failure. */
  lemma {:induction false} FirstFailureIsFirst(db: StoreResponse, from: nat, k: nat)
    requires from <= k
    requires QueryAt(db, k).QueryFailed?
    requires forall j :: from <= j < k ==> QueryAt(db, j) == RowsReturned
    ensures FirstFailure(db, from) == k
    decreases k - from
  {
    if from < k {
      FirstFailureIsFirst(db, from + 1, k);
    }
  }

  /** The commit is reached exactly when the first error is the sentinel, and then the count is the number of result sets read before it. */
  lemma CommitIffSentinel(batch: seq<Op>, db: StoreResponse)
    requires |batch| > 0 && db.beginError.None?
    ensures FlushResult(batch, db).ReachedCommit() <==> QueryAt(db, FirstFailure(db, 0)).message == NO_QUERY_RESULT
    ensures FlushResult(batch, db).ReachedCommit() ==>
              var n := FlushResult(batch, db).count;
              && QueryAt(db, n) == QueryFailed(NO_QUERY_RESULT)
              && forall j :: 0 <= j < n ==> QueryAt(db, j) == RowsReturned
  {
  }

  /** An empty batch never touches the store: the outcome is the same whatever the store would answer. */
  lemma EmptyBatchSkipped(db: StoreResponse, other: StoreResponse)
    ensures FlushResult([], db) == FlushResult([], other) == Skipped
  {
  }

  /**
   * A store that answers every queued statement with a result set and then
   * the sentinel commits the whole batch, counting every statement.
   */
  lemma {:induction false} HealthyStoreCommitsAll(batch: seq<Op>, db: StoreResponse)
    requires |batch| > 0
    requires db.beginError.None? && db.commitError.None?
    requires |db.results| == |batch| && forall j :: 0 <= j < |batch| ==> db.results[j] == RowsReturned
    ensures FlushResult(batch, db) == Committed(|batch|)
  {
    FirstFailureIsFirst(db, 0, |batch|);
  }

  /** A real error reported by any call before the sentinel prevents the commit. */
  lemma {:induction false} ErrorBeforeSentinelAborts(batch: seq<Op>, db: StoreResponse, k: nat)
    requires |batch| > 0 && db.beginError.None?
    requires k < |db.results| && db.results[k].QueryFailed? && db.results[k].message != NO_QUERY_RESULT
    requires forall j :: 0 <= j < k ==> db.results[j] == RowsReturned
    ensures FlushResult(batch, db) == Aborted(k + 1, db.results[k].message)
    ensures !FlushResult(batch, db).ReachedCommit()
  {
    FirstFailureIsFirst(db, 0, k);
  }
}
