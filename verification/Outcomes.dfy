/**
 What becomes of a job over whole runs: it stays what its enqueue asked for, it disappears only for a
 reason, its outcome stands for as long as it is to be kept, and it is retried by hand at most once.
 Beside it, the worker's side: a lease lasts as long as it was granted, and a closed intake claims nothing.
 */
module Outcomes {
  import opened Rows
  import opened Lifecycle
  import opened Invariants
  import opened Effects
  import opened Budget

  // ---- The request ----

  /** In every later state the row is the job that was asked for. */
  lemma RequestIsKept(grace: nat, states: seq<Db>, steps: seq<Step>, born: nat, n: nat)
    requires IsRun(grace, states, steps) && Inv(states[0]) && born < n < |states|
    requires steps[born].Insert? && Accepts(grace, states[born], steps[born])
    ensures var id, request := steps[born].id, steps[born].request;
            id in states[n].jobs ==>
              && AsRequested(states[n].jobs[id], steps[born].queue, request)
              && (request.awaited ==> states[n].jobs[id].awaited)
  {
    var id := steps[born].id;
    BornAsRequested(grace, states, steps, born);
    RunEvolves(grace, states, steps, born + 1, n, id);
    if id in states[n].jobs {
      EvolvesAsRequested(states[born + 1].jobs[id], states[n].jobs[id], steps[born].queue, steps[born].request);
    }
  }

  /** The budget is the request's: claims that were not refunded never exceed what was asked for, */
  lemma RequestedBudget(grace: nat, states: seq<Db>, steps: seq<Step>, born: nat, n: nat)
    requires IsRun(grace, states, steps) && Inv(states[0]) && born < n < |states|
    requires steps[born].Insert? && Accepts(grace, states[born], steps[born])
    ensures Claims(grace, states, steps, steps[born].id, born + 1, n) - Refunds(grace, states, steps, steps[born].id, born + 1, n)
            <= steps[born].request.maxAttempts
  {
    BornWithBudget(grace, states, steps, born);
    BudgetIsNeverExceeded(grace, states, steps, steps[born].id, born, n);
  }

  /** and the counters are its claims, and what was asked for raised by refunds up to the ceiling. */
  lemma RequestedCounters(grace: nat, states: seq<Db>, steps: seq<Step>, born: nat, n: nat)
    requires IsRun(grace, states, steps) && Inv(states[0]) && born < n < |states|
    requires steps[born].Insert? && Accepts(grace, states[born], steps[born]) && steps[born].id in states[n].jobs
    ensures var row := states[n].jobs[steps[born].id];
            && row.attempts == Claims(grace, states, steps, steps[born].id, born + 1, n)
            && row.maxAttempts == Capped(steps[born].request.maxAttempts + Refunds(grace, states, steps, steps[born].id, born + 1, n))
  {
    BornWithBudget(grace, states, steps, born);
    Ledger(grace, states, steps, steps[born].id, born, n);
  }

  lemma BornWithBudget(grace: nat, states: seq<Db>, steps: seq<Step>, born: nat)
    requires IsRun(grace, states, steps) && Inv(states[0]) && born < |steps|
    requires steps[born].Insert? && Accepts(grace, states[born], steps[born])
    ensures var id, after := steps[born].id, states[born + 1];
            && id !in states[born].jobs && id in after.jobs && after.jobs[id].attempts == 0
            && after.jobs[id].maxAttempts == steps[born].request.maxAttempts
  {
    BornAsRequested(grace, states, steps, born);
  }

  lemma BornAsRequested(grace: nat, states: seq<Db>, steps: seq<Step>, born: nat)
    requires IsRun(grace, states, steps) && Inv(states[0]) && born < |steps|
    requires steps[born].Insert? && Accepts(grace, states[born], steps[born])
    ensures var id, request, after := steps[born].id, steps[born].request, states[born + 1];
            && id !in states[born].jobs && id in after.jobs && id in after.issued
            && AsRequested(after.jobs[id], steps[born].queue, request) && after.jobs[id].attempts == 0
            && after.jobs[id].maxAttempts == request.maxAttempts && after.jobs[id].awaited == request.awaited
  {
    RunKeepsInv(grace, states, steps, born);
    assert StepAt(grace, states, steps, born);
    InsertStores(grace, states[born], steps[born].queue, steps[born].id, steps[born].request);
  }

  lemma EvolvesAsRequested(a: Row, b: Row, queue: Queue, request: Request)
    requires AsRequested(a, queue, request) && Evolves(a, b)
    ensures AsRequested(b, queue, request) && (a.awaited ==> b.awaited)
  {
  }

  // ---- Where rows go ----

  /** The step finishes the job in a way its retention does not keep. */
  predicate FinishesUnkept(row: Row, step: Step, id: JobId) {
    match step
    case Finish(_, token, status, _, _) => token.id == id && Retention(row, status) == Some(0)
    case SweepAbort(_, token) => token.id == id && row.failedTtl == Some(0)
    case AbortUnsettled(_, token, _) => token.id == id && row.failedTtl == Some(0)
    case _ => false
  }

  /** A row disappears in three ways: its job finishes with an outcome that is not kept, an outcome that was kept expires, or
      an operator purges a queued job. */
  lemma RowsGoForAReason(grace: nat, db: Db, step: Step, id: JobId)
    requires Inv(db) && Legal(db, step) && id in db.jobs && id !in Apply(grace, db, step).jobs
    ensures Accepts(grace, db, step)
    ensures var row := db.jobs[id];
            || (row.status.Active() && FinishesUnkept(row, step, id))
            || (step == PurgeExpired(row.queue, id) && row.status.Terminal() && row.expiresAt.Some? && row.expiresAt.value <= db.now)
            || (step == PurgeQueued(row.queue, id) && row.status.Queued?)
  {
    OnlyTargetChanges(grace, db, step, id);
    assert RowOk(db.jobs[id]);
  }

  /** A finished row as it stays: only the bookkeeping of waits and manual retries moves on. */
  predicate SameOutcome(a: Row, b: Row) {
    b == a.(awaited := b.awaited, retriedAt := b.retriedAt) && (a.retriedAt.Some? ==> b.retriedAt == a.retriedAt)
  }

  lemma FinishedStep(grace: nat, db: Db, step: Step, id: JobId)
    requires Inv(db) && Legal(db, step) && id in db.jobs && db.jobs[id].status.Terminal()
    ensures var after := Apply(grace, db, step);
            if id in after.jobs then SameOutcome(db.jobs[id], after.jobs[id])
            else db.jobs[id].expiresAt.Some? && db.jobs[id].expiresAt.value <= after.now
  {
    OnlyTargetChanges(grace, db, step, id);
    RowEffect(grace, db, step, id);
    if id !in Apply(grace, db, step).jobs { RowsGoForAReason(grace, db, step, id); }
  }

  /** A finished row keeps its outcome in every later state, and is there at least until it expires. */
  lemma {:induction false} FinishedIsKept(grace: nat, states: seq<Db>, steps: seq<Step>, i: nat, j: nat, id: JobId)
    requires IsRun(grace, states, steps) && Inv(states[0]) && i <= j < |states|
    requires id in states[i].jobs && states[i].jobs[id].status.Terminal()
    ensures id in states[j].jobs ==> SameOutcome(states[i].jobs[id], states[j].jobs[id])
    ensures id !in states[j].jobs ==>
              states[i].jobs[id].expiresAt.Some? && states[i].jobs[id].expiresAt.value <= states[j].now
    decreases j
  {
    RunKeepsInv(grace, states, steps, i);
    if i < j {
      FinishedIsKept(grace, states, steps, i, j - 1, id);
      RunKeepsInv(grace, states, steps, j - 1);
      assert StepAt(grace, states, steps, j - 1);
      RunEvolves(grace, states, steps, i, j - 1, id);
      RowEffect(grace, states[j - 1], steps[j - 1], id);
      if id in states[j - 1].jobs { FinishedStep(grace, states[j - 1], steps[j - 1], id); }
    }
  }

  /** Whatever happens later, the outcome a worker reported is what the row says until the outcome's own retention has
      passed; without a retention it says so for ever, and with a zero one the row is gone at once and for good. */
  lemma OutcomeIsKept(grace: nat, states: seq<Db>, steps: seq<Step>, i: nat, j: nat)
    requires IsRun(grace, states, steps) && Inv(states[0]) && i < j < |states|
    requires steps[i].Finish? && Accepts(grace, states[i], steps[i])
    ensures var id, done := steps[i].token.id, steps[i];
            var row := states[i].jobs[id];
            var kept := Retention(row, done.status);
            && (kept == Some(0) ==> id !in states[j].jobs)
            && (kept.None? || states[j].now < states[i].now + kept.value ==> id in states[j].jobs)
            && (id in states[j].jobs ==>
                  && states[j].jobs[id].status == done.status && states[j].jobs[id].result == done.result
                  && states[j].jobs[id].error == (if done.error.None? && done.status != Complete then row.error else done.error)
                  && states[j].jobs[id].completedAt == Some(states[i].now) && states[j].jobs[id].workerId == done.token.worker)
  {
    var done := steps[i];
    RunKeepsInv(grace, states, steps, i);
    RunKeepsInv(grace, states, steps, i + 1);
    assert StepAt(grace, states, steps, i);
    FinishStores(grace, states[i], done.queue, done.token, done.status, done.result, done.error);
    RunEvolves(grace, states, steps, i + 1, j, done.token.id);
    if done.token.id in states[i + 1].jobs { FinishedIsKept(grace, states, steps, i + 1, j, done.token.id); }
  }

  /** Once its retention has passed nothing stands in the way of the purge. */
  lemma ExpiredIsPurgeable(grace: nat, db: Db, queue: Queue, id: JobId)
    ensures Accepts(grace, db, PurgeExpired(queue, id)) <==>
            && id in db.jobs && db.jobs[id].queue == queue && db.jobs[id].expiresAt.Some?
            && (db.jobs[id].status.Complete? || db.jobs[id].status.Failed? || db.jobs[id].status.Aborted?)
            && db.jobs[id].expiresAt.value <= db.now
    ensures Accepts(grace, db, PurgeExpired(queue, id)) ==>
            Apply(grace, db, PurgeExpired(queue, id)) == db.(jobs := db.jobs - {id})
  {
  }

  /** A job is retried by hand at most once. */
  lemma RetriedOnce(grace: nat, states: seq<Db>, steps: seq<Step>, i: nat, j: nat)
    requires IsRun(grace, states, steps) && Inv(states[0]) && i < j < |steps|
    requires steps[i].RetryOccurrence? && Accepts(grace, states[i], steps[i])
    requires steps[j].RetryOccurrence? && steps[j].id == steps[i].id
    ensures !Accepts(grace, states[j], steps[j])
  {
    RunKeepsInv(grace, states, steps, i);
    assert StepAt(grace, states, steps, i);
    RetryGrants(grace, states[i], steps[i].queue, steps[i].id, steps[i].newId, steps[i].reason);
    FinishedIsKept(grace, states, steps, i + 1, j, steps[i].id);
  }

  // ---- The worker's lease ----

  predicate Beats(step: Step, worker: WorkerId) { step.Heartbeat? && step.worker == worker }

  predicate LeasedUntil(db: Db, worker: WorkerId, queue: Queue, until: Time) {
    if worker in db.workers then db.workers[worker].queue == queue && db.workers[worker].expiresAt == until
    else until <= db.now
  }

  lemma LeaseStep(grace: nat, db: Db, step: Step, worker: WorkerId, queue: Queue, until: Time)
    requires LeasedUntil(db, worker, queue, until) && (Beats(step, worker) ==> !Accepts(grace, db, step))
    ensures LeasedUntil(Apply(grace, db, step), worker, queue, until)
  {
  }

  /** A heartbeat's lease lasts exactly as long as it was granted: live before that instant, whatever the sweeper, the
      jobs and other workers do, and not live from it on, until the worker's next heartbeat. */
  lemma {:induction false} LeaseLasts(grace: nat, states: seq<Db>, steps: seq<Step>, i: nat, j: nat)
    requires IsRun(grace, states, steps) && Inv(states[0]) && i < j < |states|
    requires steps[i].Heartbeat? && Accepts(grace, states[i], steps[i])
    requires forall m :: i < m < j ==> !Beats(steps[m], steps[i].worker)
    ensures LeasedUntil(states[j], steps[i].worker, steps[i].queue, states[i].now + steps[i].ttl)
    ensures states[j].LeaseLive(Some(steps[i].worker), steps[i].queue) <==> states[j].now < states[i].now + steps[i].ttl
    decreases j
  {
    assert StepAt(grace, states, steps, j - 1);
    if i + 1 < j {
      LeaseLasts(grace, states, steps, i, j - 1);
      LeaseStep(grace, states[j - 1], steps[j - 1], steps[i].worker, steps[i].queue, states[i].now + steps[i].ttl);
    }
  }

  // ---- The worker's intake ----

  /** The step closes the intake of `worker`: a stop, or the requeue of a shutdown, whether or not it gets its row. */
  predicate Closes(db: Db, step: Step, worker: WorkerId) {
    && (match step
        case StopIntake(_, w) => w == worker
        case Requeue(_, token, _, _, guards) => guards.closeIntake && token.worker == Some(worker)
        case _ => false)
    && worker in db.workers && db.workers[worker].queue == step.queue
  }

  /** A heartbeat that asks to reopen, or one that finds no lease row and does not ask to stay closed. */
  predicate Reopens(db: Db, step: Step, worker: WorkerId) {
    Beats(step, worker) && (step.intake == Reopen || (worker !in db.workers && step.intake == Open))
  }

  predicate IntakeIsClosed(db: Db, worker: WorkerId) { worker in db.workers ==> !db.workers[worker].accepting }

  lemma ClosingStep(grace: nat, db: Db, step: Step, worker: WorkerId)
    requires Closes(db, step, worker) || (IntakeIsClosed(db, worker) && !Reopens(db, step, worker))
    ensures IntakeIsClosed(Apply(grace, db, step), worker)
  {
  }

  /** After its intake was closed a worker claims nothing until a heartbeat reopens it. */
  lemma {:induction false} ClosedIntakeClaimsNothing(grace: nat, states: seq<Db>, steps: seq<Step>, i: nat, j: nat, worker: WorkerId)
    requires IsRun(grace, states, steps) && i < j < |states| && Closes(states[i], steps[i], worker)
    requires forall m :: i < m < j ==> !Reopens(states[m], steps[m], worker)
    ensures IntakeIsClosed(states[j], worker)
    ensures j < |steps| && steps[j].Claim? && steps[j].worker == worker ==> !Accepts(grace, states[j], steps[j])
    decreases j
  {
    assert StepAt(grace, states, steps, j - 1);
    if i + 1 < j { ClosedIntakeClaimsNothing(grace, states, steps, i, j - 1, worker); }
    ClosingStep(grace, states[j - 1], steps[j - 1], worker);
  }

  /** And reopening works: such a heartbeat is taken unless the worker is leased in another queue, and leaves it accepting. */
  lemma ReopenedIntakeAccepts(grace: nat, db: Db, step: Step, worker: WorkerId)
    requires Reopens(db, step, worker) && (worker in db.workers ==> db.workers[worker].queue == step.queue)
    ensures Accepts(grace, db, step)
    ensures var after := Apply(grace, db, step); worker in after.workers && after.workers[worker].accepting
  {
  }
}
