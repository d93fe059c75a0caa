/**
 What every step keeps: the row constraints of the schema, the rule that only phase one of
 the sweeper leaves a marker pair on an active row, at most one live row per dedupe key, and
 ids that are never reused. `Evolves` is the relation every surviving row obeys in one step.
 */
module Invariants {
  import opened Rows
  import opened Lifecycle

  predicate RowOk(row: Row) {
    && 1 <= row.maxAttempts <= ATTEMPT_CEILING
    && row.attempts <= row.maxAttempts
    && (row.status.Queued? ==> row.attempts < row.maxAttempts && row.workerId.None?)
    && (row.status.Active() ==>
          row.attempts >= 1 && row.workerId.Some? && row.startedAt.Some? && row.touchedAt.Some?)
    && (row.status.Queued? || row.status.Running? ==> row.result.None?)
    && (row.status.Aborting? ==> row.SweptMarked() || row.result.None?)
  }

  /** The partial unique index: one live row per `(queue, dedupe_key)`. */
  ghost predicate UniqueKeys(db: Db) {
    forall i, j, queue, key :: db.HoldsKey(i, queue, key) && db.HoldsKey(j, queue, key) ==> i == j
  }

  ghost predicate Inv(db: Db) {
    && db.jobs.Keys <= db.issued
    && (forall id <- db.jobs :: RowOk(db.jobs[id]))
    && UniqueKeys(db)
  }

  /** The columns an enqueue fixes for good. */
  predicate SameJob(a: Row, b: Row) {
    && a.queue == b.queue && a.name == b.name && a.dedupeKey == b.dedupeKey && a.kind == b.kind && a.priority == b.priority
    && a.resultTtl == b.resultTtl && a.failedTtl == b.failedTtl && a.timeoutMs == b.timeoutMs
  }

  /** How a row may change in one step. */
  predicate Evolves(before: Row, after: Row) {
    && SameJob(after, before)
    && before.attempts <= after.attempts
    && before.maxAttempts <= after.maxAttempts
    && (after.attempts == before.attempts && after.workerId.Some? ==> after.workerId == before.workerId)
    && (after.status.Live() ==> before.status.Live())
    && (before.awaited ==> after.awaited)
  }

  /** An accepted step turns a good row into a good row that evolves from it. */
  lemma RewriteIsGood(grace: nat, db: Db, step: Step)
    requires Inv(db) && Legal(db, step) && Accepts(grace, db, step)
    requires Target(step).Some? && Target(step).value in db.jobs
    ensures var row := db.jobs[Target(step).value];
            var after := Rewritten(step, row, db.now);
            after.Some? ==> RowOk(after.value) && Evolves(row, after.value)
  {
    assert RowOk(db.jobs[Target(step).value]);
  }

  /** A row a step adds is fresh, queued and good. */
  lemma AddedIsGood(grace: nat, db: Db, step: Step)
    requires Inv(db) && Legal(db, step) && Accepts(grace, db, step) && Added(db, step).Some?
    ensures var (id, row) := Added(db, step).value;
            && id !in db.issued && id !in db.jobs && Target(step) != Some(id)
            && RowOk(row) && row.status.Queued? && row.workerId.None?
            && !db.KeyTaken(row.queue, row.dedupeKey)
  {
    if step.RetryOccurrence? { assert RowOk(db.jobs[step.id]); }
  }

  /** What happens to one id in one step. */
  lemma RowEffect(grace: nat, db: Db, step: Step, id: JobId)
    requires Inv(db) && Legal(db, step)
    ensures var after := Apply(grace, db, step);
            && (id in db.jobs && id in after.jobs ==>
                  RowOk(after.jobs[id]) && Evolves(db.jobs[id], after.jobs[id]))
            && (id !in db.jobs && id in after.jobs ==>
                  && id !in db.issued && Accepts(grace, db, step) && Added(db, step) == Some((id, after.jobs[id]))
                  && RowOk(after.jobs[id]) && after.jobs[id].status.Queued? && after.jobs[id].workerId.None?)
            && (id in after.jobs ==> id in after.issued)
            && db.issued <= after.issued && db.now <= after.now
  {
    if Accepts(grace, db, step) {
      if Target(step).Some? && Target(step).value in db.jobs { RewriteIsGood(grace, db, step); }
      if Added(db, step).Some? { AddedIsGood(grace, db, step); }
      JobsAfterAt(grace, db, step, id);
    }
    ApplyTables(grace, db, step);
    if id in db.jobs { assert RowOk(db.jobs[id]); }
  }

  /** What a step does besides the leases. */
  lemma ApplyTables(grace: nat, db: Db, step: Step)
    ensures var after := Apply(grace, db, step);
            && after.jobs == (if Accepts(grace, db, step) then JobsAfter(db, step) else db.jobs)
            && after.issued == db.issued + (if Accepts(grace, db, step) && Added(db, step).Some? then {Added(db, step).value.0} else {})
            && db.now <= after.now
  {
  }

  /** Where the row an accepted step leaves at `id` comes from. */
  lemma JobsAfterAt(grace: nat, db: Db, step: Step, id: JobId)
    requires Inv(db) && Legal(db, step) && Accepts(grace, db, step)
    ensures var after := JobsAfter(db, step);
            id in after ==>
              || Added(db, step) == Some((id, after[id]))
              || (id in db.jobs && Target(step) == Some(id) && Rewritten(step, db.jobs[id], db.now) == Some(after[id]))
              || (id in db.jobs && after[id] == db.jobs[id])
  {
  }

  /** A row that changed, or went away, is the accepted step's target. */
  lemma OnlyTargetChanges(grace: nat, db: Db, step: Step, id: JobId)
    requires Inv(db) && Legal(db, step) && id in db.jobs
    ensures var after := Apply(grace, db, step);
            id !in after.jobs || after.jobs[id] != db.jobs[id] ==>
              && Accepts(grace, db, step) && Target(step) == Some(id)
              && Rewritten(step, db.jobs[id], db.now) == (if id in after.jobs then Some(after.jobs[id]) else None)
  {
    if Accepts(grace, db, step) && Added(db, step).Some? { AddedIsGood(grace, db, step); }
  }

  /** A key held after a step was held by the same row before, or that row is new and the key was free. */
  lemma KeyOrigin(grace: nat, db: Db, step: Step, id: JobId, queue: Queue, key: string)
    requires Inv(db) && Legal(db, step) && Apply(grace, db, step).HoldsKey(id, queue, key)
    ensures db.HoldsKey(id, queue, key) || (id !in db.jobs && !db.KeyTaken(queue, Some(key)))
  {
    RowEffect(grace, db, step, id);
    if id !in db.jobs { AddedIsGood(grace, db, step); }
  }

  lemma {:induction false} StepKeepsInv(grace: nat, db: Db, step: Step)
    requires Inv(db) && Legal(db, step)
    ensures Inv(Apply(grace, db, step))
  {
    var after := Apply(grace, db, step);
    forall id <- after.jobs ensures id in after.issued && RowOk(after.jobs[id]) { RowEffect(grace, db, step, id); }
    forall i, j, queue, key | after.HoldsKey(i, queue, key) && after.HoldsKey(j, queue, key) ensures i == j {
      KeyOrigin(grace, db, step, i, queue, key);
      KeyOrigin(grace, db, step, j, queue, key);
      RowEffect(grace, db, step, i);
      RowEffect(grace, db, step, j);
    }
  }

  /** A run that starts well stays well. */
  lemma {:induction false} RunKeepsInv(grace: nat, states: seq<Db>, steps: seq<Step>, i: nat)
    requires IsRun(grace, states, steps) && Inv(states[0]) && i < |states|
    ensures Inv(states[i])
  {
    if i > 0 {
      RunKeepsInv(grace, states, steps, i - 1);
      assert StepAt(grace, states, steps, i - 1);
      StepKeepsInv(grace, states[i - 1], steps[i - 1]);
    }
  }

  /** The invariant holds in every state of every history. */
  lemma Reachable(grace: nat, states: seq<Db>, steps: seq<Step>, i: nat)
    requires IsHistory(grace, states, steps) && i < |states|
    ensures Inv(states[0]) && Inv(states[i])
  {
    RunKeepsInv(grace, states, steps, i);
  }

  /** Over any stretch of a run a surviving row evolves, and an id that is gone stays gone. */
  lemma {:induction false} RunEvolves(grace: nat, states: seq<Db>, steps: seq<Step>, i: nat, j: nat, id: JobId)
    requires IsRun(grace, states, steps) && Inv(states[0]) && i <= j < |states|
    requires id in states[i].issued
    ensures id in states[j].issued && states[i].now <= states[j].now
    ensures id in states[j].jobs ==> id in states[i].jobs && Evolves(states[i].jobs[id], states[j].jobs[id])
    decreases j
  {
    if i < j {
      RunEvolves(grace, states, steps, i, j - 1, id);
      RunKeepsInv(grace, states, steps, j - 1);
      assert StepAt(grace, states, steps, j - 1);
      RowEffect(grace, states[j - 1], steps[j - 1], id);
    }
  }
}
