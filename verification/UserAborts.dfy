/**
 A user abort is never resurrected. Once `abort` answers true the row can only finish
 `aborted`, whatever reason the caller gave and whether or not it overwrote a sweeper mark.
 */
module UserAborts {
  import opened Rows
  import opened Lifecycle
  import opened Invariants
  import opened Fencing

  /** A row on its way to `aborted`, out of reach of every requeue guard. */
  predicate Doomed(row: Row) {
    row.status.Aborted? || (row.status.Aborting? && !row.SweptMarked())
  }

  /** A step that would run the job again or report another outcome for it. */
  predicate Resurrects(grace: nat, db: Db, step: Step, id: JobId) {
    && Accepts(grace, db, step)
    && ((step.Claim? && step.id == id)
        || (step.Finish? && step.token.id == id && !step.status.Aborted?)
        || ((step.Requeue? || step.SweepRetry?) && step.token.id == id))
  }

  lemma AbortDooms(grace: nat, db: Db, step: Step)
    requires Inv(db) && step.UserAbort? && Accepts(grace, db, step)
    ensures step.id in Apply(grace, db, step).jobs && Doomed(Apply(grace, db, step).jobs[step.id])
  {
  }

  lemma DoomedStaysDoomed(grace: nat, db: Db, step: Step, id: JobId)
    requires Inv(db) && Legal(db, step) && id in db.jobs && Doomed(db.jobs[id])
    ensures !Resurrects(grace, db, step, id)
    ensures id in Apply(grace, db, step).jobs ==> Doomed(Apply(grace, db, step).jobs[id])
  {
    OnlyTargetChanges(grace, db, step, id);
    assert RowOk(db.jobs[id]);
  }

  lemma {:induction false} DoomedForever(grace: nat, states: seq<Db>, steps: seq<Step>, i: nat, j: nat, id: JobId)
    requires IsRun(grace, states, steps) && Inv(states[0]) && i <= j < |states|
    requires id in states[i].jobs && Doomed(states[i].jobs[id])
    ensures id in states[j].jobs ==> Doomed(states[j].jobs[id])
    decreases j
  {
    RunKeepsInv(grace, states, steps, i);
    if i < j {
      DoomedForever(grace, states, steps, i, j - 1, id);
      RunKeepsInv(grace, states, steps, j - 1);
      assert StepAt(grace, states, steps, j - 1);
      RunEvolves(grace, states, steps, i, j - 1, id);
      RowEffect(grace, states[j - 1], steps[j - 1], id);
      if id in states[j - 1].jobs { DoomedStaysDoomed(grace, states[j - 1], steps[j - 1], id); }
    }
  }

  /** After an abort that answered true no later step of the run claims, requeues, completes or fails the
      job, and its row is doomed in every later state it survives into. */
  lemma UserAbortIsFinal(grace: nat, states: seq<Db>, steps: seq<Step>, abort: nat, later: nat)
    requires IsRun(grace, states, steps) && Inv(states[0]) && abort < later < |steps|
    requires steps[abort].UserAbort? && Accepts(grace, states[abort], steps[abort])
    ensures var id := steps[abort].id;
            && !Resurrects(grace, states[later], steps[later], id)
            && (id in states[later].jobs ==> Doomed(states[later].jobs[id]))
  {
    var id := steps[abort].id;
    RunKeepsInv(grace, states, steps, abort);
    assert StepAt(grace, states, steps, abort);
    AbortDooms(grace, states[abort], steps[abort]);
    DoomedForever(grace, states, steps, abort + 1, later, id);
    RunKeepsInv(grace, states, steps, later);
    assert StepAt(grace, states, steps, later);
    if id in states[later].jobs { DoomedStaysDoomed(grace, states[later], steps[later], id); }
  }

  /** The row still asks this attempt to stop, for this reason. */
  predicate Asks(row: Row, attempts: nat, worker: Option<WorkerId>, reason: string) {
    row.status.Aborting? && row.result.None? && row.error == Some(reason) && row.attempts == attempts && row.workerId == worker
  }

  lemma AskingStep(grace: nat, db: Db, step: Step, id: JobId, attempts: nat, worker: Option<WorkerId>, reason: string)
    requires Inv(db) && Legal(db, step) && id in db.jobs && Asks(db.jobs[id], attempts, worker, reason)
    ensures var after := Apply(grace, db, step);
            id in after.jobs && after.jobs[id].status.Aborting? ==> Asks(after.jobs[id], attempts, worker, reason)
  {
    OnlyTargetChanges(grace, db, step, id);
  }

  lemma {:induction false} AsksUntilFinished(grace: nat, states: seq<Db>, steps: seq<Step>, i: nat, j: nat, id: JobId,
                                             attempts: nat, worker: Option<WorkerId>, reason: string)
    requires IsRun(grace, states, steps) && Inv(states[0]) && i <= j < |states|
    requires id in states[i].jobs && Asks(states[i].jobs[id], attempts, worker, reason)
    ensures id in states[j].jobs && states[j].jobs[id].status.Aborting? ==> Asks(states[j].jobs[id], attempts, worker, reason)
    decreases j
  {
    if i < j && id in states[j].jobs && states[j].jobs[id].status.Aborting? {
      RunKeepsInv(grace, states, steps, i);
      RunKeepsInv(grace, states, steps, j - 1);
      assert StepAt(grace, states, steps, j - 1);
      RunEvolves(grace, states, steps, i, j - 1, id);
      RowEffect(grace, states[j - 1], steps[j - 1], id);
      DoomedForever(grace, states, steps, i, j - 1, id);
      AsksUntilFinished(grace, states, steps, i, j - 1, id, attempts, worker, reason);
      AskingStep(grace, states[j - 1], steps[j - 1], id, attempts, worker, reason);
    }
  }

  /** A user's abort of an active job reaches its owner: until the row finishes or is gone, every poll with that claim
      answers with the user's own reason, even "swept", as no sweeper's mark; and the owner can always report it. */
  lemma AbortReachesTheOwner(grace: nat, states: seq<Db>, steps: seq<Step>, abort: nat, later: nat, worker: WorkerId)
    requires IsRun(grace, states, steps) && Inv(states[0]) && abort < later < |states|
    requires steps[abort].UserAbort? && Accepts(grace, states[abort], steps[abort])
    requires var row := states[abort].jobs[steps[abort].id]; row.status.Active() && row.workerId == Some(worker)
    ensures var id, queue, attempts := steps[abort].id, steps[abort].queue, states[abort].jobs[steps[abort].id].attempts;
            id in states[later].jobs && !states[later].jobs[id].status.Terminal() ==>
              && PollClaim(states[later], queue, worker, id, attempts) == AbortRequested(false, Some(steps[abort].reason))
              && Accepts(grace, states[later], Finish(queue, Token(id, attempts, Some(worker)), Aborted, None, None))
  {
    var id := steps[abort].id;
    var attempts := states[abort].jobs[id].attempts;
    RunKeepsInv(grace, states, steps, abort);
    assert StepAt(grace, states, steps, abort);
    assert RowOk(states[abort].jobs[id]);
    AbortDooms(grace, states[abort], steps[abort]);
    DoomedForever(grace, states, steps, abort + 1, later, id);
    AsksUntilFinished(grace, states, steps, abort + 1, later, id, attempts, Some(worker), steps[abort].reason);
    RunKeepsInv(grace, states, steps, abort + 1);
    RunEvolves(grace, states, steps, abort + 1, later, id);
  }

  /** Only phase one writes the marker pair on a row that can still be recovered: an aborting row
      carries it only if the step before left it there or was an accepted mark. */
  lemma MarkerOrigin(grace: nat, db: Db, step: Step, id: JobId)
    requires Inv(db) && Legal(db, step)
    requires var after := Apply(grace, db, step);
             id in after.jobs && after.jobs[id].status.Aborting? && after.jobs[id].SweptMarked()
    ensures id in db.jobs
    ensures var after := Apply(grace, db, step).jobs[id];
            || (step.SweepMark? && step.token.id == id && Accepts(grace, db, step))
            || (db.jobs[id].status.Aborting? && db.jobs[id].SweptMarked() && after == db.jobs[id].(awaited := after.awaited))
  {
    RowEffect(grace, db, step, id);
    OnlyTargetChanges(grace, db, step, id);
    assert RowOk(db.jobs[id]);
  }

  /** And the user's abort always answers true unless the job is finished or already being aborted. */
  lemma AbortAnswers(grace: nat, db: Db, queue: Queue, id: JobId, reason: string)
    requires Inv(db)
    ensures Accepts(grace, db, UserAbort(queue, id, reason)) <==>
            db.Has(queue, id) && !Doomed(db.jobs[id]) && !db.jobs[id].status.Terminal()
  {
  }
}
