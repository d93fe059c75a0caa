/**
 What the statements that store, claim and settle a job do, said column by column: when the row is
 taken, and what every column of it holds afterwards.
 */
module Effects {
  import opened Rows
  import opened Lifecycle
  import opened Invariants

  /** The columns an enqueue fixes for good, as the request gave them. */
  predicate AsRequested(row: Row, queue: Queue, request: Request) {
    && row.queue == queue && row.name == request.name && row.dedupeKey == request.dedupeKey && row.kind == request.kind
    && row.priority == request.priority && row.resultTtl == request.resultTtl && row.failedTtl == request.failedTtl
    && row.timeoutMs == request.timeoutMs
  }

  /** A row nobody has touched yet. */
  predicate Untouched(row: Row) {
    && row.status.Queued? && row.workerId.None? && row.startedAt.None? && row.touchedAt.None? && row.completedAt.None?
    && row.expiresAt.None? && row.result.None? && row.retriedAt.None?
  }

  /** An insert lands exactly when no queued, running or aborting row of the queue has the key, and stores the request. */
  lemma InsertStores(grace: nat, db: Db, queue: Queue, id: JobId, request: Request)
    requires Inv(db) && id !in db.issued && request.Valid()
    ensures var step := Insert(queue, id, request); var after := Apply(grace, db, step);
            && (Accepts(grace, db, step) <==>
                  request.dedupeKey.None? || KeyIsFree(db, queue, request.dedupeKey.value))
            && (!Accepts(grace, db, step) ==> after == db)
            && (Accepts(grace, db, step) ==>
                  && id in after.jobs && after == db.(jobs := db.jobs[id := after.jobs[id]], issued := db.issued + {id})
                  && var row := after.jobs[id];
                     && AsRequested(row, queue, request) && Untouched(row) && row.error.None?
                     && row.attempts == 0 && row.maxAttempts == request.maxAttempts
                     && row.scheduledAt == request.scheduledAt && row.awaited == request.awaited)
  {
    if request.dedupeKey.Some? { FreeKeyIsNotTaken(db, queue, request.dedupeKey.value); }
  }

  /** A claim takes a queued job exactly when it is due, inside the priority band, and the worker's lease in this queue is
      live and accepting; it starts the next attempt at once and changes nothing else. */
  lemma ClaimTakes(grace: nat, db: Db, queue: Queue, id: JobId, worker: WorkerId, low: int, high: int)
    ensures var step := Claim(queue, id, worker, low, high); var after := Apply(grace, db, step);
            && (Accepts(grace, db, step) <==>
                  && id in db.jobs && db.jobs[id].queue == queue && db.jobs[id].status == Queued
                  && db.jobs[id].scheduledAt <= db.now && low <= db.jobs[id].priority && db.jobs[id].priority <= high
                  && worker in db.workers && db.workers[worker].queue == queue && db.workers[worker].accepting
                  && db.now < db.workers[worker].expiresAt)
            && (Accepts(grace, db, step) ==>
                  && id in after.jobs && after == db.(jobs := db.jobs[id := after.jobs[id]])
                  && var row, was := after.jobs[id], db.jobs[id];
                     && SameJob(row, was) && row.status == Running && row.attempts == was.attempts + 1
                     && row.maxAttempts == was.maxAttempts && row.workerId == Some(worker)
                     && row.startedAt == Some(db.now) && row.touchedAt == Some(db.now)
                     && row.result == was.result && row.error == was.error && row.awaited == was.awaited)
  {
  }

  /** How long an outcome is kept: the result clock for a completion, the failure clock for the rest. */
  function Retention(row: Row, status: Status): Option<nat> {
    match status
    case Complete => row.resultTtl
    case _ => row.failedTtl
  }

  /** The outcome as it is stored at `now`. */
  predicate Stored(was: Row, row: Row, status: Status, result: Option<Json>, error: Option<string>, now: Time) {
    && SameJob(row, was) && row.status == status && row.result == result && row.error == error
    && row.attempts == was.attempts && row.maxAttempts == was.maxAttempts && row.workerId == was.workerId
    && row.completedAt == Some(now) && row.touchedAt == Some(now) && row.startedAt == was.startedAt
    && row.scheduledAt == was.scheduledAt && row.awaited == was.awaited && row.retriedAt == was.retriedAt
    && (row.expiresAt.None? <==> Retention(was, status).None?)
    && (row.expiresAt.Some? ==> row.expiresAt.value - now == Retention(was, status).value)
  }

  /** A finish is taken exactly from the claim's own active row, unless a user asked for its abort and the owner reports
      something else. It stores the caller's outcome, an earlier error standing in for a missing one unless the job completed,
      or deletes the row when that outcome is not kept. */
  lemma FinishStores(grace: nat, db: Db, queue: Queue, token: Token, status: Status, result: Option<Json>, error: Option<string>)
    requires status.Terminal()
    ensures var step := Finish(queue, token, status, result, error); var after := Apply(grace, db, step); var id := token.id;
            && (Accepts(grace, db, step) <==>
                  && id in db.jobs && db.jobs[id].queue == queue && db.jobs[id].attempts == token.attempts
                  && db.jobs[id].workerId == token.worker
                  && (db.jobs[id].status == Running || (db.jobs[id].status == Aborting &&
                        (status == Aborted || (db.jobs[id].error == Some("swept") && db.jobs[id].result == Some(SWEPT_RESULT))))))
            && (Accepts(grace, db, step) ==>
                  if Retention(db.jobs[id], status) == Some(0) then after == db.(jobs := db.jobs - {id})
                  else
                    && id in after.jobs && after == db.(jobs := db.jobs[id := after.jobs[id]])
                    && Stored(db.jobs[id], after.jobs[id], status, result,
                              if error.None? && status != Complete then db.jobs[id].error else error, db.now))
  {
  }

  /** A user's abort ends a queued job at once, asks the owner of an active one to stop, and stores the reason. */
  lemma UserAbortAsks(grace: nat, db: Db, queue: Queue, id: JobId, reason: string)
    ensures var step := UserAbort(queue, id, reason); var after := Apply(grace, db, step);
            Accepts(grace, db, step) ==>
              && id in db.jobs && id in after.jobs && after == db.(jobs := db.jobs[id := after.jobs[id]])
              && var row, was := after.jobs[id], db.jobs[id];
                 && SameJob(row, was) && row.error == Some(reason) && row.result.None? && row.awaited == was.awaited
                 && row.attempts == was.attempts && row.maxAttempts == was.maxAttempts && row.workerId == was.workerId
                 && row.startedAt == was.startedAt && row.touchedAt == Some(db.now)
                 && (if was.status == Queued then
                       && row.status == Aborted && row.completedAt == Some(db.now)
                       && (was.failedTtl.Some? ==> row.expiresAt == Some(db.now + was.failedTtl.value))
                     else row.status == Aborting && row.completedAt == was.completedAt && row.expiresAt == was.expiresAt)
  {
  }

  /** A manual retry is granted exactly for a finished, never retried job with an attempt number left and a free key. It
      marks the old row and adds a new one, due now, that carries the job over with exactly one more attempt; a cron
      occurrence's key stays with its schedule. */
  lemma RetryGrants(grace: nat, db: Db, queue: Queue, id: JobId, newId: JobId, reason: string)
    requires Inv(db) && newId !in db.issued
    ensures var step := RetryOccurrence(queue, id, newId, reason); var after := Apply(grace, db, step);
            && (Accepts(grace, db, step) ==>
                  && id in db.jobs && db.jobs[id].queue == queue && db.jobs[id].status.Terminal()
                  && db.jobs[id].retriedAt.None? && db.jobs[id].attempts < 2147483646
                  && newId in after.jobs && id in after.jobs && after.jobs[id] == db.jobs[id].(retriedAt := Some(db.now))
                  && after == db.(jobs := db.jobs[id := after.jobs[id]][newId := after.jobs[newId]], issued := db.issued + {newId})
                  && var row, was := after.jobs[newId], db.jobs[id];
                     && SameJob(row, was.(dedupeKey := row.dedupeKey)) && Untouched(row) && row.error == Some(reason)
                     && row.dedupeKey == (match was.kind case CronJob => None case PlainJob => was.dedupeKey)
                     && row.attempts == was.attempts && row.maxAttempts == was.attempts + 1
                     && row.scheduledAt == db.now && !row.awaited)
            && (!Accepts(grace, db, step) ==> after == db)
            && (id in db.jobs && db.jobs[id].queue == queue && db.jobs[id].status.Terminal() && db.jobs[id].retriedAt.None?
                && db.jobs[id].attempts < 2147483646 ==>
                  (Accepts(grace, db, step) <==>
                     || db.jobs[id].kind.CronJob? || db.jobs[id].dedupeKey.None?
                     || KeyIsFree(db, queue, db.jobs[id].dedupeKey.value)))
  {
    if id in db.jobs && db.jobs[id].dedupeKey.Some? { FreeKeyIsNotTaken(db, queue, db.jobs[id].dedupeKey.value); }
  }

  /** Every job of the queue with this key is finished. */
  ghost predicate KeyIsFree(db: Db, queue: Queue, key: string) {
    forall j <- db.jobs :: db.jobs[j].queue == queue && db.jobs[j].dedupeKey == Some(key) ==>
      db.jobs[j].status.Complete? || db.jobs[j].status.Failed? || db.jobs[j].status.Aborted?
  }

  lemma LiveOrFinished(status: Status)
    ensures status.Live() <==> !status.Terminal()
  {
    match status
    case Queued => case Running => case Aborting => case Complete => case Failed => case Aborted =>
  }

  lemma FreeKeyIsNotTaken(db: Db, queue: Queue, key: string)
    ensures db.KeyTaken(queue, Some(key)) <==> !KeyIsFree(db, queue, key)
  {
    if !KeyIsFree(db, queue, key) {
      var j :| j in db.jobs && db.jobs[j].queue == queue && db.jobs[j].dedupeKey == Some(key)
               && !db.jobs[j].status.Terminal();
      LiveOrFinished(db.jobs[j].status);
      assert db.HoldsKey(j, queue, key);
    }
  }

  /** A retry or requeue hands the attempt back: queued without owner or result, now or after the delay, the attempt
      spent or, on a refund, one more granted up to the ceiling. */
  predicate HandedBack(was: Row, row: Row, error: Option<string>, refund: bool, delay: nat, now: Time) {
    && SameJob(row, was) && row.status == Queued && row.workerId.None? && row.result.None? && row.startedAt.None?
    && row.completedAt.None? && row.expiresAt.None? && row.touchedAt == Some(now) && row.awaited == was.awaited
    && row.error == (if error.Some? then error else was.error)
    && row.attempts == was.attempts
    && (if refund then row.maxAttempts == was.maxAttempts + 1 || (row.maxAttempts == was.maxAttempts == 2147483646)
        else row.maxAttempts == was.maxAttempts)
    && (if delay == 0 then row.scheduledAt == was.scheduledAt else row.scheduledAt - now == delay)
  }

  lemma RequeueHandsBack(grace: nat, db: Db, queue: Queue, token: Token, error: Option<string>, delay: nat, guards: Guards)
    requires Inv(db)
    ensures var step := Requeue(queue, token, error, delay, guards); var after := Apply(grace, db, step); var id := token.id;
            && (Accepts(grace, db, step) ==>
                  && id in db.jobs && id in after.jobs && after.jobs == db.jobs[id := after.jobs[id]]
                  && HandedBack(db.jobs[id], after.jobs[id], error, guards.refund, delay, db.now))
            && (!Accepts(grace, db, step) ==> after.jobs == db.jobs)
  {
    if token.id in db.jobs { assert RowOk(db.jobs[token.id]); }
  }

  /** A resolver's abort, or the sweeper's: aborted under the given error, or deleted when failures are not kept. */
  predicate Ended(was: Row, after: Option<Row>, error: Option<string>, now: Time) {
    if was.failedTtl == Some(0) then after.None? else after.Some? && Stored(was, after.value, Aborted, None, error, now)
  }

  /** The reason a resolver leaves: its own over a running row or a sweeper's mark, the user's where a user asked. */
  lemma UnsettledEnds(grace: nat, db: Db, queue: Queue, token: Token, reason: string)
    requires Inv(db)
    ensures var step := AbortUnsettled(queue, token, reason); var after := Apply(grace, db, step); var id := token.id;
            Accepts(grace, db, step) ==>
              && id in db.jobs && after.workers == db.workers
              && Ended(db.jobs[id], if id in after.jobs then Some(after.jobs[id]) else None,
                       if db.jobs[id].status == Aborting && db.jobs[id].result.None? then db.jobs[id].error else Some(reason), db.now)
              && after.jobs - {id} == db.jobs - {id}
  {
    if token.id in db.jobs { assert RowOk(db.jobs[token.id]); }
  }
}
