/**
 The tables of the `ironqueue` schema as values: a job row, a worker lease, and the
 predicates that more than one SQL statement evaluates on them. SQL `NULL` is `None`;
 `=` on a nullable column is written out as "is `Some` of that value".
 Times are whole milliseconds.
 */
module Rows {

  datatype Option<+T> = None | Some(value: T)

  type JobId = nat
  type WorkerId = nat
  type Queue = string
  type Time = int

  /** `i32::MAX - 1`, the bound on `max_attempts` that the schema and every refund respect. */
  const ATTEMPT_CEILING := 2147483646

  /** The marker pair phase one of the sweeper writes: this `error` with this `result`. */
  const SWEPT := "swept"
  const SWEPT_RESULT := JsonText("ironqueue:swept")

  datatype Json = JsonText(text: string) | JsonOther(rendered: string)

  datatype Kind = PlainJob | CronJob

  datatype Status = Queued | Running | Aborting | Complete | Failed | Aborted {
    predicate Active() { Running? || Aborting? }

    /** The statuses the partial dedupe index covers. */
    predicate Live() { Queued? || Active() }

    predicate Terminal() { Complete? || Failed? || Aborted? }
  }

  /** One `ironqueue.jobs` row, without the columns no statement here reads. */
  datatype Row = Row(
    queue: Queue,
    name: string,
    dedupeKey: Option<string>,
    kind: Kind,
    priority: int,
    resultTtl: Option<nat>,
    failedTtl: Option<nat>,
    timeoutMs: Option<nat>,
    status: Status,
    attempts: nat,
    maxAttempts: nat,
    scheduledAt: Time,
    startedAt: Option<Time>,
    touchedAt: Option<Time>,
    completedAt: Option<Time>,
    expiresAt: Option<Time>,
    result: Option<Json>,
    error: Option<string>,
    workerId: Option<WorkerId>,
    retriedAt: Option<Time>,
    awaited: bool)
  {
    /** Whether the row carries the sweeper's marker pair. */
    predicate SweptMarked() { error == Some(SWEPT) && result == Some(SWEPT_RESULT) }

    predicate Retryable() { attempts < maxAttempts }
  }

  /** One `ironqueue.workers` row. */
  datatype Lease = Lease(queue: Queue, expiresAt: Time, accepting: bool)

  /** What every write of an attempt is guarded by: the claim `(id, attempts, worker_id)`. */
  datatype Token = Token(id: JobId, attempts: nat, worker: Option<WorkerId>)

  /** The tables, the database clock, and the ids already handed out (ids are never reused). */
  datatype Db = Db(jobs: map<JobId, Row>, workers: map<WorkerId, Lease>, now: Time, issued: set<JobId>) {

    /** The row of `id` if it is there and belongs to `queue`. */
    predicate Has(queue: Queue, id: JobId) { id in jobs && jobs[id].queue == queue }

    /** `j.attempts = $a AND j.worker_id IS NOT DISTINCT FROM $w`, on a row of `queue`. */
    predicate Owned(queue: Queue, token: Token) {
      && Has(queue, token.id)
      && jobs[token.id].attempts == token.attempts
      && jobs[token.id].workerId == token.worker
    }

    /** The expiry of the lease row of `worker` in `queue`, `None` when there is no such row. */
    function LeaseExpiry(worker: Option<WorkerId>, queue: Queue): Option<Time> {
      if worker.Some? && worker.value in workers && workers[worker.value].queue == queue
      then Some(workers[worker.value].expiresAt) else None
    }

    predicate LeasePresent(worker: Option<WorkerId>, queue: Queue) { LeaseExpiry(worker, queue).Some? }

    predicate LeaseLive(worker: Option<WorkerId>, queue: Queue) {
      LeasePresent(worker, queue) && LeaseExpiry(worker, queue).value > now
    }

    /** The intake gate of the claim. */
    predicate IntakeOpen(worker: WorkerId, queue: Queue) {
      LeaseLive(Some(worker), queue) && workers[worker].accepting
    }

    predicate HoldsKey(id: JobId, queue: Queue, key: string) {
      Has(queue, id) && jobs[id].status.Live() && jobs[id].dedupeKey == Some(key)
    }

    /** Whether inserting a live row with this key would hit the partial unique index. */
    predicate KeyTaken(queue: Queue, key: Option<string>) {
      key.Some? && exists id <- jobs :: HoldsKey(id, queue, key.value)
    }
  }

  function OrElse<T>(a: Option<T>, b: Option<T>): Option<T> {
    if a.Some? then a else b
  }

  /** `ironqueue.job_is_stuck`; a `NULL` clock makes its disjunct not true. */
  predicate JobIsStuck(row: Row, grace: nat, leaseExpiry: Option<Time>, now: Time) {
    || (row.timeoutMs.Some? && row.startedAt.Some? && row.startedAt.value + row.timeoutMs.value + grace < now)
    || (var clock := OrElse(row.touchedAt, row.startedAt);
        && clock.Some? && clock.value + grace < now
        && (leaseExpiry.None? || leaseExpiry.value + grace <= now))
  }

  /** `now() + ttl`, or `NULL` for a retention that keeps the row for ever. */
  function ExpiryAfter(now: Time, ttl: Option<nat>): Option<Time> {
    if ttl.None? then None else Some(now + ttl.value)
  }

  /** The cooperative window of both recovery batches: the owner's lease row is gone, or the
      abort request stamped in `touched_at` is a whole grace old. */
  predicate WindowPassed(row: Row, grace: nat, leasePresent: bool, now: Time) {
    !leasePresent || (row.touchedAt.Some? && row.touchedAt.value + grace <= now)
  }
}
