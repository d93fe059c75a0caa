/**
 The two-phase cooperative abort. Before the sweeper hands an attempt to somebody else its
 owner has had a whole grace since the mark, or has been without a lease for twice the grace,
 in every run of heartbeats, purges, marks and recoveries and however fast passes repeat.
 */
module CooperativeWindow {
  import opened Rows
  import opened Lifecycle
  import opened Invariants
  import opened Fencing
  import opened UserAborts

  /** An active row was active under the same claim one step earlier, or that step claimed it. */
  lemma ActiveOrigin(grace: nat, db: Db, step: Step, id: JobId)
    requires Inv(db) && Legal(db, step)
    requires var after := Apply(grace, db, step); id in after.jobs && after.jobs[id].status.Active()
    ensures var row := Apply(grace, db, step).jobs[id];
            || (ClaimedAt(grace, db, step, Token(id, row.attempts, row.workerId))
                && row.startedAt == Some(db.now) && row.touchedAt == Some(db.now))
            || (id in db.jobs && db.jobs[id].status.Active() && db.jobs[id].queue == row.queue
                && db.jobs[id].attempts == row.attempts && db.jobs[id].workerId == row.workerId
                && db.jobs[id].startedAt == row.startedAt
                && (row.status.Running? ==> db.jobs[id].status.Running? && db.jobs[id].touchedAt == row.touchedAt))
  {
    RowEffect(grace, db, step, id);
    if id in db.jobs {
      OnlyTargetChanges(grace, db, step, id);
      assert RowOk(db.jobs[id]);
    }
  }

  /** Every active row goes back to the claim that made it active, and carries that claim's time. */
  lemma {:induction false} FindClaim(grace: nat, states: seq<Db>, steps: seq<Step>, k: nat, id: JobId) returns (claim: nat)
    requires IsHistory(grace, states, steps) && k < |states|
    requires id in states[k].jobs && states[k].jobs[id].status.Active()
    ensures claim < k && steps[claim].Claim? && steps[claim].queue == states[k].jobs[id].queue
    ensures ClaimedAt(grace, states[claim], steps[claim], Token(id, states[k].jobs[id].attempts, states[k].jobs[id].workerId))
    ensures states[k].jobs[id].startedAt == Some(states[claim].now)
    ensures states[k].jobs[id].status.Running? ==> states[k].jobs[id].touchedAt == Some(states[claim].now)
    decreases k
  {
    Reachable(grace, states, steps, k - 1);
    assert StepAt(grace, states, steps, k - 1);
    ActiveOrigin(grace, states[k - 1], steps[k - 1], id);
    var row := states[k].jobs[id];
    if ClaimedAt(grace, states[k - 1], steps[k - 1], Token(id, row.attempts, row.workerId)) {
      claim := k - 1;
    } else {
      claim := FindClaim(grace, states, steps, k - 1, id);
    }
  }

  /** The attempt claimed at `start` has overrun its timeout by more than a grace, or is older than a grace and its owner
      is without a lease, or with one that expired at least a grace ago. */
  predicate Stuck(timeoutMs: Option<nat>, start: Time, grace: nat, leaseExpiry: Option<Time>, now: Time) {
    || (timeoutMs.Some? && now - start > timeoutMs.value + grace)
    || (now - start > grace && (leaseExpiry.Some? ==> now - leaseExpiry.value >= grace))
  }

  /** The sweeper asks a running attempt to stop exactly when it is stuck, counted from the claim that started it: no live
      worker inside its timeout is asked, and every overdue or abandoned attempt can be. */
  lemma MarkedExactlyWhenStuck(grace: nat, states: seq<Db>, steps: seq<Step>, k: nat, id: JobId) returns (claim: nat)
    requires IsHistory(grace, states, steps) && k < |states| && id in states[k].jobs && states[k].jobs[id].status.Running?
    ensures var row := states[k].jobs[id];
            var token := Token(id, row.attempts, row.workerId);
            && claim < k && claim < |steps| && ClaimedAt(grace, states[claim], steps[claim], token)
            && (Accepts(grace, states[k], SweepMark(row.queue, token)) <==>
                  Stuck(row.timeoutMs, states[claim].now, grace, states[k].LeaseExpiry(row.workerId, row.queue), states[k].now))
  {
    claim := FindClaim(grace, states, steps, k, id);
  }

  /** The abort request is on the row for the owner's poll to read. */
  predicate MarkVisible(db: Db, queue: Queue, id: JobId, attempts: nat, worker: Option<WorkerId>) {
    worker.Some? && PollClaim(db, queue, worker.value, id, attempts) == AbortRequested(true, Some(SWEPT))
  }

  /** Every marked row goes back to the mark of the same attempt, and still carries that mark's time. */
  lemma {:induction false} FindMark(grace: nat, states: seq<Db>, steps: seq<Step>, k: nat, id: JobId) returns (mark: nat)
    requires IsHistory(grace, states, steps) && k < |states|
    requires id in states[k].jobs && states[k].jobs[id].status.Aborting? && states[k].jobs[id].SweptMarked()
    ensures mark < k && steps[mark].SweepMark? && Accepts(grace, states[mark], steps[mark])
    ensures var row := states[k].jobs[id];
            && steps[mark].token == Token(id, row.attempts, row.workerId)
            && row.touchedAt == Some(states[mark].now)
            && forall n :: mark < n <= k ==> MarkVisible(states[n], row.queue, id, row.attempts, row.workerId)
    decreases k
  {
    Reachable(grace, states, steps, k - 1);
    assert StepAt(grace, states, steps, k - 1);
    MarkerOrigin(grace, states[k - 1], steps[k - 1], id);
    RowEffect(grace, states[k - 1], steps[k - 1], id);
    assert MarkVisible(states[k], states[k].jobs[id].queue, id, states[k].jobs[id].attempts, states[k].jobs[id].workerId);
    if steps[k - 1].SweepMark? && steps[k - 1].token.id == id && Accepts(grace, states[k - 1], steps[k - 1]) {
      mark := k - 1;
    } else {
      mark := FindMark(grace, states, steps, k - 1, id);
    }
  }

  /** A lease row disappears only in a purge, twice the grace after its expiry. */
  lemma LeaseLoss(grace: nat, db: Db, step: Step, worker: WorkerId, queue: Queue)
    requires Legal(db, step) && db.LeasePresent(Some(worker), queue)
    requires !Apply(grace, db, step).LeasePresent(Some(worker), queue)
    ensures step == PurgeLease(queue, worker)
    ensures db.LeaseExpiry(Some(worker), queue).value + 2 * grace <= db.now
  {
  }

  /** A lease that was there and is gone was last there at `purge`, and the clock shows twice the grace past it. */
  lemma {:induction false} FindPurge(grace: nat, states: seq<Db>, steps: seq<Step>, i: nat, k: nat,
                                     worker: WorkerId, queue: Queue) returns (purge: nat)
    requires IsRun(grace, states, steps) && Inv(states[0]) && i <= k < |states|
    requires states[i].LeasePresent(Some(worker), queue) && !states[k].LeasePresent(Some(worker), queue)
    ensures i <= purge < k && states[purge].LeasePresent(Some(worker), queue)
    ensures forall n :: purge < n <= k ==> !states[n].LeasePresent(Some(worker), queue)
    ensures states[purge].LeaseExpiry(Some(worker), queue).value + 2 * grace <= states[k].now
    decreases k
  {
    assert StepAt(grace, states, steps, k - 1);
    RunKeepsInv(grace, states, steps, k - 1);
    if states[k - 1].LeasePresent(Some(worker), queue) {
      purge := k - 1;
      LeaseLoss(grace, states[k - 1], steps[k - 1], worker, queue);
    } else {
      purge := FindPurge(grace, states, steps, i, k - 1, worker, queue);
    }
  }

  /** What recovery of an attempt owes its owner: `claim` committed it, `mark` asked for its abort (if the
      sweeper did), and at `now` either the lease row is there and a grace has passed since `touched`,
      or the lease the owner last had, at `last`, expired twice the grace ago. */
  ghost predicate WindowGranted(grace: nat, states: seq<Db>, k: nat, worker: WorkerId, queue: Queue,
                                touched: Time, claim: nat, last: nat)
    requires k < |states|
  {
    && claim < k && states[claim].LeaseLive(Some(worker), queue)
    && if states[k].LeasePresent(Some(worker), queue)
       then touched + grace <= states[k].now
       else && claim <= last < k && states[last].LeasePresent(Some(worker), queue)
            && (forall n :: last < n <= k ==> !states[n].LeasePresent(Some(worker), queue))
            && states[last].LeaseExpiry(Some(worker), queue).value + 2 * grace <= states[k].now
  }

  lemma WindowFromGuard(grace: nat, states: seq<Db>, steps: seq<Step>, k: nat, id: JobId) returns (claim: nat, last: nat)
    requires IsHistory(grace, states, steps) && k < |states| && id in states[k].jobs
    requires var row := states[k].jobs[id];
             row.status.Active() && WindowPassed(row, grace, states[k].LeasePresent(row.workerId, row.queue), states[k].now)
    ensures var row := states[k].jobs[id];
            && row.workerId.Some? && row.touchedAt.Some?
            && WindowGranted(grace, states, k, row.workerId.value, row.queue, row.touchedAt.value, claim, last)
            && claim < |steps| && ClaimedAt(grace, states[claim], steps[claim], Token(id, row.attempts, row.workerId))
  {
    var row := states[k].jobs[id];
    Reachable(grace, states, steps, k);
    assert RowOk(row);
    claim := FindClaim(grace, states, steps, k, id);
    last := claim;
    if !states[k].LeasePresent(row.workerId, row.queue) {
      last := FindPurge(grace, states, steps, claim, k, row.workerId.value, row.queue);
    }
  }

  /** The sweeper requeues an attempt only when its owner holds no live lease, and not before one grace
      after the mark (lease row still there) or two graces after the lease's expiry (row purged). All that
      while the abort request was there for the owner's poll to read. */
  lemma RequeueWaitsForTheOwner(grace: nat, states: seq<Db>, steps: seq<Step>, k: nat)
      returns (claim: nat, mark: nat, last: nat)
    requires IsHistory(grace, states, steps) && k < |steps|
    requires steps[k].SweepRetry? && Accepts(grace, states[k], steps[k])
    ensures var token := steps[k].token;
            && token.worker.Some?
            && !states[k].LeaseLive(token.worker, steps[k].queue)
            && claim < |steps| && ClaimedAt(grace, states[claim], steps[claim], token)
            && mark < k && steps[mark] == SweepMark(steps[k].queue, token) && Accepts(grace, states[mark], steps[mark])
            && WindowGranted(grace, states, k, token.worker.value, steps[k].queue, states[mark].now, claim, last)
            && forall n :: mark < n <= k ==> MarkVisible(states[n], steps[k].queue, token.id, token.attempts, token.worker)
  {
    var id := steps[k].token.id;
    Reachable(grace, states, steps, k);
    mark := FindMark(grace, states, steps, k, id);
    claim, last := WindowFromGuard(grace, states, steps, k, id);
    RunEvolves(grace, states, steps, mark, k, id) by { Reachable(grace, states, steps, mark); }
  }

  /** The sweeper's abort gives the same window, counted from whatever last asked for the abort, and a row
      that holds a dedupe key is never taken from a live owner. */
  lemma AbortWaitsForTheOwner(grace: nat, states: seq<Db>, steps: seq<Step>, k: nat) returns (claim: nat, last: nat)
    requires IsHistory(grace, states, steps) && k < |steps|
    requires steps[k].SweepAbort? && Accepts(grace, states[k], steps[k])
    ensures var token := steps[k].token; var row := states[k].jobs[token.id];
            && token.worker.Some? && row.touchedAt.Some?
            && (row.dedupeKey.Some? ==> !states[k].LeaseLive(token.worker, steps[k].queue))
            && claim < |steps| && ClaimedAt(grace, states[claim], steps[claim], token)
            && WindowGranted(grace, states, k, token.worker.value, steps[k].queue, row.touchedAt.value, claim, last)
  {
    claim, last := WindowFromGuard(grace, states, steps, k, steps[k].token.id);
  }

  /** The owner of a marked attempt has had its window: no lease row, or a whole grace since the mark. */
  predicate WindowOver(grace: nat, leaseExpiry: Option<Time>, mark: Time, now: Time) {
    leaseExpiry.Some? ==> now - mark >= grace
  }

  /** And then nothing else stands in the way: a marked attempt with attempts left is requeued exactly when its owner has
      no live lease and has had its window; it is aborted exactly when it has had its window and holds no key from a live owner. */
  lemma RecoveredExactlyWhenDue(grace: nat, states: seq<Db>, steps: seq<Step>, k: nat, id: JobId, delay: nat) returns (mark: nat)
    requires IsHistory(grace, states, steps) && k < |states| && id in states[k].jobs
    requires states[k].jobs[id].status.Aborting? && states[k].jobs[id].SweptMarked()
    ensures var row := states[k].jobs[id];
            var token := Token(id, row.attempts, row.workerId);
            var expiry := states[k].LeaseExpiry(row.workerId, row.queue);
            && mark < k && mark < |steps| && steps[mark] == SweepMark(row.queue, token) && Accepts(grace, states[mark], steps[mark])
            && (Accepts(grace, states[k], SweepRetry(row.queue, token, delay)) <==>
                  && row.attempts < row.maxAttempts && (expiry.Some? ==> expiry.value <= states[k].now)
                  && WindowOver(grace, expiry, states[mark].now, states[k].now))
            && (Accepts(grace, states[k], SweepAbort(row.queue, token)) <==>
                  && (row.dedupeKey.Some? && expiry.Some? ==> expiry.value <= states[k].now)
                  && WindowOver(grace, expiry, states[mark].now, states[k].now))
  {
    mark := FindMark(grace, states, steps, k, id);
    Reachable(grace, states, steps, mark);
    RunEvolves(grace, states, steps, mark, k, id);
  }

  /** An aborting row without the mark was asked to stop by a user, and is as that abort left it. */
  lemma AskOrigin(grace: nat, db: Db, step: Step, id: JobId)
    requires Inv(db) && Legal(db, step)
    requires var after := Apply(grace, db, step);
             id in after.jobs && after.jobs[id].status.Aborting? && !after.jobs[id].SweptMarked()
    ensures id in db.jobs
    ensures var after := Apply(grace, db, step).jobs[id];
            || (step.UserAbort? && step.id == id && Accepts(grace, db, step) && after.touchedAt == Some(db.now))
            || (db.jobs[id].status.Aborting? && !db.jobs[id].SweptMarked() && after == db.jobs[id].(awaited := after.awaited))
  {
    RowEffect(grace, db, step, id);
    OnlyTargetChanges(grace, db, step, id);
    assert RowOk(db.jobs[id]);
  }

  lemma {:induction false} FindAbort(grace: nat, states: seq<Db>, steps: seq<Step>, k: nat, id: JobId) returns (abort: nat)
    requires IsHistory(grace, states, steps) && k < |states|
    requires id in states[k].jobs && states[k].jobs[id].status.Aborting? && !states[k].jobs[id].SweptMarked()
    ensures abort < k && steps[abort].UserAbort? && steps[abort].id == id && Accepts(grace, states[abort], steps[abort])
    ensures states[k].jobs[id].touchedAt == Some(states[abort].now)
    decreases k
  {
    Reachable(grace, states, steps, k - 1);
    assert StepAt(grace, states, steps, k - 1);
    AskOrigin(grace, states[k - 1], steps[k - 1], id);
    if steps[k - 1].UserAbort? && steps[k - 1].id == id && Accepts(grace, states[k - 1], steps[k - 1]) {
      abort := k - 1;
    } else {
      abort := FindAbort(grace, states, steps, k - 1, id);
    }
  }

  /** A user's abort is carried out for an owner that never does: exactly when the attempt has overrun its timeout, or a
      grace has passed since the abort without a lease or since the lease's expiry, with the same window and the same
      protection of a key as for a mark. */
  lemma UserAbortIsCarriedOut(grace: nat, states: seq<Db>, steps: seq<Step>, k: nat, id: JobId) returns (claim: nat, abort: nat)
    requires IsHistory(grace, states, steps) && k < |states| && id in states[k].jobs
    requires states[k].jobs[id].status.Aborting? && !states[k].jobs[id].SweptMarked()
    ensures var row := states[k].jobs[id];
            var token := Token(id, row.attempts, row.workerId);
            var expiry, now := states[k].LeaseExpiry(row.workerId, row.queue), states[k].now;
            && claim < k && claim < |steps| && ClaimedAt(grace, states[claim], steps[claim], token)
            && abort < k && abort < |steps| && steps[abort].UserAbort? && steps[abort].id == id
            && (Accepts(grace, states[k], SweepAbort(row.queue, token)) <==>
                  && ((row.timeoutMs.Some? && now - states[claim].now > row.timeoutMs.value + grace)
                      || Stuck(None, states[abort].now, grace, expiry, now))
                  && (row.dedupeKey.Some? && expiry.Some? ==> expiry.value <= now)
                  && WindowOver(grace, expiry, states[abort].now, now))
  {
    claim := FindClaim(grace, states, steps, k, id);
    abort := FindAbort(grace, states, steps, k, id);
  }
}
