/**
 Completion notifications over whole runs: a job sends exactly one if it became terminal while
 somebody awaited it and none otherwise, across the finish, the sweeper's abort, the resolvers'
 abort and the abort of a queued job.
 */
module Completion {
  import opened Rows
  import opened Lifecycle
  import opened Invariants

  predicate Unfinished(db: Db, id: JobId) { id in db.jobs && db.jobs[id].status.Live() }

  predicate Awaited(db: Db, id: JobId) { id in db.jobs && db.jobs[id].awaited }

  /** The job stopped being unfinished, other than by an operator deleting it from the queue.
      A finish whose retention deletes immediately leaves no row, so absence counts too. */
  predicate BecomesTerminal(before: Db, step: Step, after: Db, id: JobId) {
    Unfinished(before, id) && !Unfinished(after, id) && !step.PurgeQueued?
  }

  /** A step notifies for `id` exactly when `id` becomes terminal in it while awaited. */
  lemma NotifiesIffTerminal(grace: nat, db: Db, step: Step, id: JobId)
    requires Inv(db) && Legal(db, step)
    ensures Notifies(grace, db, step) == Some(id) <==>
            BecomesTerminal(db, step, Apply(grace, db, step), id) && Awaited(db, id)
  {
    if id in db.jobs {
      assert RowOk(db.jobs[id]);
      OnlyTargetChanges(grace, db, step, id);
    }
  }

  lemma FinishedForever(grace: nat, states: seq<Db>, steps: seq<Step>, i: nat, j: nat, id: JobId)
    requires IsRun(grace, states, steps) && Inv(states[0]) && i <= j < |states|
    requires id in states[i].issued && !Unfinished(states[i], id)
    ensures !Unfinished(states[j], id)
  {
    RunEvolves(grace, states, steps, i, j, id);
  }

  /** Notifications for `id` among the first `n` steps. */
  ghost function Notifications(grace: nat, states: seq<Db>, steps: seq<Step>, id: JobId, n: nat): nat
    requires |states| == |steps| + 1 && n <= |steps|
  {
    if n == 0 then 0 else
    Notifications(grace, states, steps, id, n - 1) + if Notifies(grace, states[n - 1], steps[n - 1]) == Some(id) then 1 else 0
  }

  /** The step, if any, among the first `n` in which `id` becomes terminal while awaited. */
  ghost predicate TerminalWhileAwaited(states: seq<Db>, steps: seq<Step>, id: JobId, n: nat)
    requires |states| == |steps| + 1 && n <= |steps|
  {
    exists i :: 0 <= i < n && BecomesTerminal(states[i], steps[i], states[i + 1], id) && Awaited(states[i], id)
  }

  /** Exactly one notification for a job that became terminal while awaited, none for any other. */
  lemma {:induction false} ExactlyOneNotification(grace: nat, states: seq<Db>, steps: seq<Step>, id: JobId, n: nat)
    requires IsRun(grace, states, steps) && Inv(states[0]) && n <= |steps|
    ensures Notifications(grace, states, steps, id, n) == if TerminalWhileAwaited(states, steps, id, n) then 1 else 0
  {
    if n > 0 {
      ExactlyOneNotification(grace, states, steps, id, n - 1);
      NoticeAt(grace, states, steps, id, n - 1);
      if TerminalWhileAwaited(states, steps, id, n - 1) {
        var i :| 0 <= i < n - 1 && BecomesTerminal(states[i], steps[i], states[i + 1], id) && Awaited(states[i], id);
        TerminalOnce(grace, states, steps, id, i, n - 1);
      }
    }
  }

  lemma NoticeAt(grace: nat, states: seq<Db>, steps: seq<Step>, id: JobId, n: nat)
    requires IsRun(grace, states, steps) && Inv(states[0]) && n < |steps|
    ensures Notifies(grace, states[n], steps[n]) == Some(id) <==>
            BecomesTerminal(states[n], steps[n], states[n + 1], id) && Awaited(states[n], id)
  {
    assert StepAt(grace, states, steps, n);
    RunKeepsInv(grace, states, steps, n);
    NotifiesIffTerminal(grace, states[n], steps[n], id);
  }

  lemma TerminalOnce(grace: nat, states: seq<Db>, steps: seq<Step>, id: JobId, i: nat, j: nat)
    requires IsRun(grace, states, steps) && Inv(states[0]) && i < j < |steps|
    requires BecomesTerminal(states[i], steps[i], states[i + 1], id)
    ensures !BecomesTerminal(states[j], steps[j], states[j + 1], id)
  {
    RunKeepsInv(grace, states, steps, i);
    RunEvolves(grace, states, steps, i, i + 1, id);
    FinishedForever(grace, states, steps, i + 1, j, id);
  }
}
