/**
 The job lifecycle protocol. Every SQL statement is one guarded atomic step on the tables:
 `Apply` gives the tables after the step, whatever the guard answers, and `Accepts` says
 whether the guard held (the boolean or row the Rust caller gets back). All choices of the
 environment (which row, which jittered delay, how far the clock moves) are parameters of
 the step. A statement over several rows is the sequence of its row steps: every guard
 reads only its own row and its owner's lease.
 */
module Lifecycle {
  import opened Rows

  /** What an enqueue writes; `JobConfig::validate` bounds `maxAttempts`. */
  datatype Request = Request(
    name: string, dedupeKey: Option<string>, kind: Kind, priority: int, maxAttempts: nat,
    resultTtl: Option<nat>, failedTtl: Option<nat>, timeoutMs: Option<nat>, scheduledAt: Time, awaited: bool)
  {
    predicate Valid() { 1 <= maxAttempts <= ATTEMPT_CEILING }
  }

  datatype Guards = Guards(allowRunning: bool, allowSwept: bool, refund: bool, closeIntake: bool)

  datatype Intake = Reopen | Open | Closed

  datatype Step =
    | Tick(elapsed: nat)
    | Heartbeat(worker: WorkerId, queue: Queue, ttl: nat, intake: Intake)
    | StopIntake(queue: Queue, worker: WorkerId)
    | Insert(queue: Queue, id: JobId, request: Request)
    | MarkAwaited(queue: Queue, id: JobId)
    | Claim(queue: Queue, id: JobId, worker: WorkerId, low: int, high: int)
    | Finish(queue: Queue, token: Token, status: Status, result: Option<Json>, error: Option<string>)
    | Requeue(queue: Queue, token: Token, error: Option<string>, delay: nat, guards: Guards)
    | UserAbort(queue: Queue, id: JobId, reason: string)
    | RetryOccurrence(queue: Queue, id: JobId, newId: JobId, reason: string)
    | SweepMark(queue: Queue, token: Token)
    | SweepRetry(queue: Queue, token: Token, delay: nat)
    | SweepAbort(queue: Queue, token: Token)
    | AbortUnsettled(queue: Queue, token: Token, reason: string)
    | PurgeLease(queue: Queue, worker: WorkerId)
    | PurgeExpired(queue: Queue, id: JobId)
    | PurgeQueued(queue: Queue, id: JobId)

  /** What the Rust layer guarantees of a statement before it is sent: validated configuration,
      a fresh id, a terminal status. Nothing about the state of the row it aims at. */
  predicate Legal(db: Db, step: Step) {
    match step
    case Insert(_, id, request) => id !in db.issued && request.Valid()
    case RetryOccurrence(_, _, newId, _) => newId !in db.issued
    case Finish(_, _, status, _, _) => status.Terminal()
    case _ => true
  }

  // ---- Row transformations, one per statement ----

  function NewRow(queue: Queue, request: Request): Row {
    Row(queue, request.name, request.dedupeKey, request.kind, request.priority, request.resultTtl,
        request.failedTtl, request.timeoutMs, Queued, 0, request.maxAttempts, request.scheduledAt,
        None, None, None, None, None, None, None, None, request.awaited)
  }

  function ClaimedRow(row: Row, worker: WorkerId, now: Time): Row {
    row.(status := Running, attempts := row.attempts + 1, startedAt := Some(now), touchedAt := Some(now),
         workerId := Some(worker))
  }

  /** The row a finish leaves, `None` when the outcome's retention deletes immediately. */
  function FinishedRow(row: Row, status: Status, result: Option<Json>, error: Option<string>,
                       ttl: Option<nat>, now: Time): Option<Row>
  {
    if ttl == Some(0) then None else
    Some(row.(status := status, result := result, error := error, completedAt := Some(now),
              touchedAt := Some(now), expiresAt := ExpiryAfter(now, ttl)))
  }

  function RequeuedRow(row: Row, error: Option<string>, delay: nat, refund: bool, now: Time): Row {
    row.(status := Queued,
         maxAttempts := if !refund then row.maxAttempts
                        else if row.maxAttempts + 1 <= ATTEMPT_CEILING then row.maxAttempts + 1
                        else ATTEMPT_CEILING,
         scheduledAt := if delay == 0 then row.scheduledAt else now + delay,
         error := OrElse(error, row.error),
         completedAt := None, startedAt := None, workerId := None,
         touchedAt := Some(now), expiresAt := None, result := None)
  }

  function UserAbortedRow(row: Row, reason: string, now: Time): Row {
    var queued := row.status.Queued?;
    row.(status := if queued then Aborted else Aborting,
         error := Some(reason), touchedAt := Some(now), result := None,
         completedAt := if queued then Some(now) else row.completedAt,
         expiresAt := if queued && row.failedTtl.Some? then Some(now + row.failedTtl.value) else row.expiresAt)
  }

  /** A cron occurrence's key stays with its schedule; any other key moves to the retry. */
  function RetryKey(row: Row): Option<string> {
    if row.kind.CronJob? then None else row.dedupeKey
  }

  function RetryRow(row: Row, reason: string, now: Time): Row {
    row.(dedupeKey := RetryKey(row), status := Queued, maxAttempts := row.attempts + 1, scheduledAt := now,
         startedAt := None, touchedAt := None, completedAt := None, expiresAt := None, result := None,
         error := Some(reason), workerId := None, retriedAt := None, awaited := false)
  }

  function MarkedRow(row: Row, now: Time): Row {
    row.(status := Aborting, error := Some(SWEPT), result := Some(SWEPT_RESULT), touchedAt := Some(now))
  }

  /** The reason `abort_unsettled_claim` stores: an operator's stands, the sweeper's marker gives way. */
  function UnsettledReason(row: Row, reason: string): Option<string> {
    if row.status.Running? || row.SweptMarked() then Some(reason) else row.error
  }

  // ---- Guards ----

  /** Whether the statement's WHERE clause selects a row. */
  predicate Accepts(grace: nat, db: Db, step: Step) {
    match step
    case Tick(_) => true
    case Heartbeat(worker, queue, _, _) => worker in db.workers ==> db.workers[worker].queue == queue
    case StopIntake(queue, worker) => db.LeasePresent(Some(worker), queue)
    case Insert(queue, _, request) => !db.KeyTaken(queue, request.dedupeKey)
    case MarkAwaited(queue, id) => db.Has(queue, id) && !db.jobs[id].awaited
    case Claim(queue, id, worker, low, high) =>
      && db.Has(queue, id) && db.jobs[id].status.Queued? && db.jobs[id].scheduledAt <= db.now
      && low <= db.jobs[id].priority <= high
      && db.IntakeOpen(worker, queue)
    case Finish(queue, token, status, _, _) =>
      && db.Owned(queue, token)
      && var row := db.jobs[token.id];
         (row.status.Running? || (row.status.Aborting? && (status.Aborted? || row.SweptMarked())))
    case Requeue(queue, token, _, _, guards) =>
      && db.Owned(queue, token)
      && var row := db.jobs[token.id];
         && ((guards.allowRunning && row.status.Running?)
             || (guards.allowSwept && row.status.Aborting? && row.SweptMarked()))
         && (if guards.refund then row.attempts < ATTEMPT_CEILING else row.Retryable())
    case UserAbort(queue, id, _) =>
      && db.Has(queue, id)
      && var row := db.jobs[id];
         (row.status.Queued? || row.status.Running? || (row.status.Aborting? && row.SweptMarked()))
    case RetryOccurrence(queue, id, _, _) =>
      && db.Has(queue, id)
      && var row := db.jobs[id];
         row.status.Terminal() && row.retriedAt.None? && row.attempts < ATTEMPT_CEILING
         && !db.KeyTaken(queue, RetryKey(row))
    case SweepMark(queue, token) =>
      && db.Owned(queue, token)
      && var row := db.jobs[token.id];
         row.status.Running? && JobIsStuck(row, grace, db.LeaseExpiry(row.workerId, queue), db.now)
    case SweepRetry(queue, token, _) =>
      && db.Owned(queue, token)
      && var row := db.jobs[token.id];
         && row.status.Aborting? && row.SweptMarked() && row.Retryable()
         && !db.LeaseLive(row.workerId, queue)
         && WindowPassed(row, grace, db.LeasePresent(row.workerId, queue), db.now)
    case SweepAbort(queue, token) =>
      && db.Owned(queue, token)
      && var row := db.jobs[token.id];
         && row.status.Active()
         && (row.SweptMarked() || JobIsStuck(row, grace, db.LeaseExpiry(row.workerId, queue), db.now))
         && (row.dedupeKey.None? || !db.LeaseLive(row.workerId, queue))
         && WindowPassed(row, grace, db.LeasePresent(row.workerId, queue), db.now)
    case AbortUnsettled(queue, token, _) => db.Owned(queue, token) && db.jobs[token.id].status.Active()
    case PurgeLease(queue, worker) =>
      db.LeasePresent(Some(worker), queue) && db.workers[worker].expiresAt <= db.now - 2 * grace
    case PurgeExpired(queue, id) =>
      && db.Has(queue, id)
      && var row := db.jobs[id];
         row.status.Terminal() && row.expiresAt.Some? && row.expiresAt.value <= db.now
    case PurgeQueued(queue, id) => db.Has(queue, id) && db.jobs[id].status.Queued?
  }

  // ---- Effects ----

  /** The existing row a step writes or deletes. */
  function Target(step: Step): Option<JobId> {
    match step
    case MarkAwaited(_, id) => Some(id)
    case Claim(_, id, _, _, _) => Some(id)
    case Finish(_, token, _, _, _) => Some(token.id)
    case Requeue(_, token, _, _, _) => Some(token.id)
    case UserAbort(_, id, _) => Some(id)
    case RetryOccurrence(_, id, _, _) => Some(id)
    case SweepMark(_, token) => Some(token.id)
    case SweepRetry(_, token, _) => Some(token.id)
    case SweepAbort(_, token) => Some(token.id)
    case AbortUnsettled(_, token, _) => Some(token.id)
    case PurgeExpired(_, id) => Some(id)
    case PurgeQueued(_, id) => Some(id)
    case _ => None
  }

  /** What an accepted step leaves of its target row; `None` means deleted. */
  function Rewritten(step: Step, row: Row, now: Time): Option<Row> {
    match step
    case MarkAwaited(_, _) => Some(row.(awaited := true))
    case Claim(_, _, worker, _, _) => Some(ClaimedRow(row, worker, now))
    case Finish(_, _, status, result, error) =>
      FinishedRow(row, status, result, if status.Complete? then error else OrElse(error, row.error),
                  if status.Complete? then row.resultTtl else row.failedTtl, now)
    case Requeue(_, _, error, delay, guards) => Some(RequeuedRow(row, error, delay, guards.refund, now))
    case UserAbort(_, _, reason) => Some(UserAbortedRow(row, reason, now))
    case RetryOccurrence(_, _, _, _) => Some(row.(retriedAt := Some(now)))
    case SweepMark(_, _) => Some(MarkedRow(row, now))
    case SweepRetry(_, _, delay) => Some(RequeuedRow(row, None, delay, false, now))
    case SweepAbort(_, _) => FinishedRow(row, Aborted, None, row.error, row.failedTtl, now)
    case AbortUnsettled(_, _, reason) =>
      FinishedRow(row, Aborted, None, UnsettledReason(row, reason), row.failedTtl, now)
    case PurgeExpired(_, _) => None
    case PurgeQueued(_, _) => None
    case _ => Some(row)
  }

  /** The row a step adds, if it adds one. */
  function Added(db: Db, step: Step): Option<(JobId, Row)> {
    match step
    case Insert(queue, id, request) => Some((id, NewRow(queue, request)))
    case RetryOccurrence(queue, id, newId, reason) =>
      if db.Has(queue, id) then Some((newId, RetryRow(db.jobs[id], reason, db.now))) else None
    case _ => None
  }

  function Put(jobs: map<JobId, Row>, id: JobId, row: Option<Row>): map<JobId, Row> {
    if row.Some? then jobs[id := row.value] else jobs - {id}
  }

  function JobsAfter(db: Db, step: Step): map<JobId, Row> {
    var target := Target(step);
    var jobs := if target.Some? && target.value in db.jobs
                then Put(db.jobs, target.value, Rewritten(step, db.jobs[target.value], db.now)) else db.jobs;
    var added := Added(db, step);
    if added.Some? then jobs[added.value.0 := added.value.1] else jobs
  }

  function WorkersAfter(db: Db, step: Step): map<WorkerId, Lease> {
    match step
    case Heartbeat(worker, queue, ttl, intake) =>
      var accepting := if worker in db.workers && !intake.Reopen? then db.workers[worker].accepting else !intake.Closed?;
      db.workers[worker := Lease(queue, db.now + ttl, accepting)]
    case StopIntake(_, worker) =>
      if worker in db.workers then db.workers[worker := db.workers[worker].(accepting := false)] else db.workers
    case PurgeLease(_, worker) => db.workers - {worker}
    case _ => db.workers
  }

  /** The shutdown requeue closes its worker's intake whether or not it takes the row. */
  function IntakeClosed(db: Db, step: Step): Db {
    if step.Requeue? && step.guards.closeIntake && db.LeasePresent(step.token.worker, step.queue)
    then db.(workers := db.workers[step.token.worker.value := db.workers[step.token.worker.value].(accepting := false)])
    else db
  }

  function Apply(grace: nat, db: Db, step: Step): Db {
    if !Accepts(grace, db, step) then IntakeClosed(db, step) else
    var after := Db(JobsAfter(db, step), WorkersAfter(db, step),
                    if step.Tick? then db.now + step.elapsed else db.now,
                    match Added(db, step) case Some(pair) => db.issued + {pair.0} case None => db.issued);
    IntakeClosed(after, step)
  }

  /** The id whose completion notification the step sends: the row finished, and somebody awaits it. */
  function Notifies(grace: nat, db: Db, step: Step): Option<JobId> {
    var target := Target(step);
    if !Accepts(grace, db, step) || target.None? || target.value !in db.jobs then None else
    var row := db.jobs[target.value];
    var finishes := match step
      case Finish(_, _, _, _, _) => true
      case SweepAbort(_, _) => true
      case AbortUnsettled(_, _, _) => true
      case UserAbort(_, _, _) => row.status.Queued?
      case _ => false;
    if finishes && row.awaited then target else None
  }

  // ---- Runs ----

  /** `states[i + 1]` is `states[i]` after the legal step `steps[i]`. */
  ghost predicate IsRun(grace: nat, states: seq<Db>, steps: seq<Step>) {
    && |states| == |steps| + 1
    && forall i :: 0 <= i < |steps| ==> StepAt(grace, states, steps, i)
  }

  ghost predicate StepAt(grace: nat, states: seq<Db>, steps: seq<Step>, i: nat)
    requires |states| == |steps| + 1 && i < |steps|
  {
    Legal(states[i], steps[i]) && states[i + 1] == Apply(grace, states[i], steps[i])
  }

  /** A run that starts on empty tables. */
  ghost predicate IsHistory(grace: nat, states: seq<Db>, steps: seq<Step>) {
    IsRun(grace, states, steps) && states[0].jobs == map[] && states[0].workers == map[] && states[0].issued == {}
  }
}
