/**
 The attempt budget. `attempts` only ever grows, a refund raises `max_attempts` instead, and
 over the whole life of a row the claims that were not refunded never exceed what the row was
 inserted with, however often the refund saturates at the ceiling.
 */
module Budget {
  import opened Rows
  import opened Lifecycle
  import opened Invariants

  predicate ClaimsJob(grace: nat, db: Db, step: Step, id: JobId) {
    step.Claim? && step.id == id && Accepts(grace, db, step)
  }

  predicate RefundsJob(grace: nat, db: Db, step: Step, id: JobId) {
    step.Requeue? && step.guards.refund && step.token.id == id && Accepts(grace, db, step)
  }

  /** Committed claims of `id` among the steps in `[from, to)`. */
  ghost function Claims(grace: nat, states: seq<Db>, steps: seq<Step>, id: JobId, from: nat, to: nat): nat
    requires |states| == |steps| + 1 && from <= to <= |steps|
  {
    if from == to then 0 else
    Claims(grace, states, steps, id, from, to - 1) + if ClaimsJob(grace, states[to - 1], steps[to - 1], id) then 1 else 0
  }

  /** Refunded requeues of `id` among the steps in `[from, to)`. */
  ghost function Refunds(grace: nat, states: seq<Db>, steps: seq<Step>, id: JobId, from: nat, to: nat): nat
    requires |states| == |steps| + 1 && from <= to <= |steps|
  {
    if from == to then 0 else
    Refunds(grace, states, steps, id, from, to - 1) + if RefundsJob(grace, states[to - 1], steps[to - 1], id) then 1 else 0
  }

  function Capped(n: nat): nat {
    if n <= ATTEMPT_CEILING then n else ATTEMPT_CEILING
  }

  /** One step moves the two counters exactly as the claim and the refund do. */
  lemma CountersMove(grace: nat, db: Db, step: Step, id: JobId)
    requires Inv(db) && Legal(db, step) && id in db.jobs && id in Apply(grace, db, step).jobs
    ensures var row, after := db.jobs[id], Apply(grace, db, step).jobs[id];
            && after.attempts == row.attempts + (if ClaimsJob(grace, db, step, id) then 1 else 0)
            && after.maxAttempts == (if RefundsJob(grace, db, step, id) then Capped(row.maxAttempts + 1) else row.maxAttempts)
  {
    OnlyTargetChanges(grace, db, step, id);
    assert RowOk(db.jobs[id]);
  }

  /** The ledger of a row inserted by step `born`: attempts are what it started with plus its claims,
      `max_attempts` what it started with plus its refunds up to the ceiling. */
  lemma {:induction false} Ledger(grace: nat, states: seq<Db>, steps: seq<Step>, id: JobId, born: nat, n: nat)
    requires IsRun(grace, states, steps) && Inv(states[0]) && born < n < |states|
    requires id !in states[born].jobs && id in states[born + 1].jobs
    ensures var row := states[born + 1].jobs[id];
            var claims, refunds := Claims(grace, states, steps, id, born + 1, n), Refunds(grace, states, steps, id, born + 1, n);
            && (id in states[n].jobs ==>
                  && states[n].jobs[id].attempts == row.attempts + claims
                  && states[n].jobs[id].maxAttempts == Capped(row.maxAttempts + refunds))
            && claims <= row.maxAttempts - row.attempts + refunds
    decreases n
  {
    RunKeepsInv(grace, states, steps, born + 1);
    assert RowOk(states[born + 1].jobs[id]);
    if n > born + 1 {
      Ledger(grace, states, steps, id, born, n - 1);
      LedgerStep(grace, states, steps, id, born, n - 1);
    }
  }

  lemma LedgerStep(grace: nat, states: seq<Db>, steps: seq<Step>, id: JobId, born: nat, n: nat)
    requires IsRun(grace, states, steps) && Inv(states[0]) && born < n < |steps|
    requires id in states[born + 1].jobs
    ensures id in states[n + 1].jobs ==> id in states[n].jobs
    ensures ClaimsJob(grace, states[n], steps[n], id) ==> id in states[n + 1].jobs
    ensures id in states[n + 1].jobs ==>
              var row, after := states[n].jobs[id], states[n + 1].jobs[id];
              && RowOk(after)
              && after.attempts == row.attempts + (if ClaimsJob(grace, states[n], steps[n], id) then 1 else 0)
              && after.maxAttempts == (if RefundsJob(grace, states[n], steps[n], id) then Capped(row.maxAttempts + 1) else row.maxAttempts)
  {
    RunKeepsInv(grace, states, steps, born + 1);
    RunKeepsInv(grace, states, steps, n);
    RunKeepsInv(grace, states, steps, n + 1);
    assert StepAt(grace, states, steps, n);
    RunEvolves(grace, states, steps, born + 1, n, id);
    RunEvolves(grace, states, steps, n, n + 1, id);
    if id in states[n + 1].jobs { CountersMove(grace, states[n], steps[n], id); }
  }

  /** Claims minus refunded claims never exceed the `max_attempts` a row was inserted with; for a
      manual retry, which starts with `attempts` already spent, they never exceed the one it grants. */
  lemma BudgetIsNeverExceeded(grace: nat, states: seq<Db>, steps: seq<Step>, id: JobId, born: nat, n: nat)
    requires IsRun(grace, states, steps) && Inv(states[0]) && born < n < |states|
    requires id !in states[born].jobs && id in states[born + 1].jobs
    ensures Claims(grace, states, steps, id, born + 1, n) - Refunds(grace, states, steps, id, born + 1, n)
            <= states[born + 1].jobs[id].maxAttempts - states[born + 1].jobs[id].attempts
    ensures steps[born].Insert? ==> states[born + 1].jobs[id].attempts == 0
    ensures steps[born].RetryOccurrence? ==> states[born + 1].jobs[id].maxAttempts == states[born + 1].jobs[id].attempts + 1
    ensures steps[born].Insert? || steps[born].RetryOccurrence?
  {
    Ledger(grace, states, steps, id, born, n);
    RunKeepsInv(grace, states, steps, born);
    assert StepAt(grace, states, steps, born);
    RowEffect(grace, states[born], steps[born], id);
  }

  /** Every reachable row is inside the range check, strictly below its maximum while queued, and no
      step ever lowers `attempts`. */
  lemma RangeHolds(grace: nat, states: seq<Db>, steps: seq<Step>, i: nat, j: nat, id: JobId)
    requires IsHistory(grace, states, steps) && i <= j < |states| && id in states[i].jobs
    ensures var row := states[i].jobs[id];
            && row.attempts <= row.maxAttempts <= ATTEMPT_CEILING
            && (row.status.Queued? ==> row.attempts < row.maxAttempts)
    ensures id in states[j].jobs ==> states[i].jobs[id].attempts <= states[j].jobs[id].attempts
  {
    Reachable(grace, states, steps, i);
    RunEvolves(grace, states, steps, i, j, id);
  }
}
