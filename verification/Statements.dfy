/**
 The Rust layer over the tables: statements that carry many rows at once, the resolver loops that
 fall back from a requeue to an abort, and the consumer's `Attempt`.
 */
module Statements {
  import opened Rows
  import opened Lifecycle
  import opened Invariants
  import opened Custody
  import opened Effects

  /** A step that reads and writes its target row and reads, but never writes, the leases. */
  predicate RowStep(step: Step) {
    || step.Claim? || step.SweepMark? || step.SweepRetry? || step.SweepAbort? || step.AbortUnsettled?
    || step.PurgeExpired? || step.PurgeQueued? || (step.Requeue? && !step.guards.closeIntake)
  }

  /** Steps aimed at different rows, as a statement over an `unnest`ed batch of ids has them. */
  ghost predicate Batch(steps: seq<Step>) {
    && (forall i :: 0 <= i < |steps| ==> RowStep(steps[i]))
    && (forall i, j :: 0 <= i < j < |steps| ==> Target(steps[i]) != Target(steps[j]))
  }

  /** What one statement over the whole batch does, with every guard read on the tables as the statement
      finds them. */
  ghost predicate BatchEffect(grace: nat, before: Db, steps: seq<Step>, after: Db) {
    && after.workers == before.workers && after.now == before.now && after.issued == before.issued
    && after.jobs.Keys <= before.jobs.Keys
    && (forall i :: 0 <= i < |steps| ==> RowEffectOf(grace, before, steps[i], after))
    && (forall id <- before.jobs :: (forall i :: 0 <= i < |steps| ==> Target(steps[i]) != Some(id)) ==>
          id in after.jobs && after.jobs[id] == before.jobs[id])
  }

  predicate RowEffectOf(grace: nat, before: Db, step: Step, after: Db) {
    Target(step).Some? && Target(step).value in before.jobs ==>
      var id := Target(step).value;
      (if id in after.jobs then Some(after.jobs[id]) else None)
      == (if Accepts(grace, before, step) then Rewritten(step, before.jobs[id], before.now) else Some(before.jobs[id]))
  }

  /** A row step's guard does not see the other rows. */
  lemma GuardIsLocal(grace: nat, a: Db, b: Db, step: Step)
    requires RowStep(step) && a.workers == b.workers && a.now == b.now
    requires var id := Target(step).value;
             (id in a.jobs <==> id in b.jobs) && (id in a.jobs ==> a.jobs[id] == b.jobs[id])
    ensures Accepts(grace, a, step) == Accepts(grace, b, step)
  {
  }

  /** `after` differs from `before` at most in the row of `step`, as that step alone leaves it. */
  ghost predicate Local(grace: nat, before: Db, step: Step, after: Db) {
    && RowEffectOf(grace, before, step, after)
    && after.workers == before.workers && after.now == before.now && after.issued == before.issued
    && after.jobs.Keys <= before.jobs.Keys
    && (forall id <- before.jobs :: Target(step) != Some(id) ==> id in after.jobs && after.jobs[id] == before.jobs[id])
  }

  /** A row step writes nothing but its row. */
  lemma RowStepIsLocal(grace: nat, db: Db, step: Step)
    requires RowStep(step)
    ensures Local(grace, db, step, Apply(grace, db, step))
  {
  }

  predicate SameRow(a: Db, b: Db, id: JobId) {
    (id in a.jobs <==> id in b.jobs) && (id in a.jobs ==> a.jobs[id] == b.jobs[id])
  }

  function RowIn(db: Db, id: JobId): Option<Row> { if id in db.jobs then Some(db.jobs[id]) else None }

  /** What a requeue could still hand back: running or marked by the sweeper, with an attempt left to grant. */
  predicate Returnable(row: Row, refund: bool) {
    && (row.status == Running || (row.error == Some("swept") && row.result == Some(SWEPT_RESULT)))
    && (if refund then row.attempts < 2147483646 else row.attempts < row.maxAttempts)
  }

  /** A claim's active row handed back if that is still possible, and otherwise ended, under the user's reason where a
      user asked for the abort. */
  predicate SettledRow(row: Row, after: Option<Row>, reason: string, refund: bool, delay: nat, now: Time) {
    if Returnable(row, refund) then after.Some? && HandedBack(row, after.value, Some(reason), refund, delay, now)
    else Ended(row, after, if row.status == Aborting && row.result.None? then row.error else Some(reason), now)
  }

  /** Resolving one claim: nothing is active under it afterwards; an active row is settled, and nothing else changes. */
  ghost predicate Settles(before: Db, after: Db, token: Token, reason: string, refund: bool, delay: nat, outcome: Resolution) {
    && after.workers == before.workers && after.now == before.now && !ActiveWith(after, token)
    && (forall id: JobId :: id != token.id ==> SameRow(before, after, id))
    && (if ActiveWith(before, token) then
          && SettledRow(before.jobs[token.id], RowIn(after, token.id), reason, refund, delay, before.now)
          && outcome == (if Returnable(before.jobs[token.id], refund) then Requeued else AbortedClaim)
        else outcome == Unchanged && after == before)
  }

  predicate GivenBack(db: Db, token: Token) { ActiveWith(db, token) && Returnable(db.jobs[token.id], true) }

  /** How many of the claims have an active row, and of how many of those rows the attempt can be refunded. */
  ghost function CountActive(db: Db, tokens: seq<Token>): nat {
    if tokens == [] then 0
    else CountActive(db, tokens[..|tokens| - 1]) + if ActiveWith(db, tokens[|tokens| - 1]) then 1 else 0
  }

  ghost function CountGivenBack(db: Db, tokens: seq<Token>): nat {
    if tokens == [] then 0
    else CountGivenBack(db, tokens[..|tokens| - 1]) + if GivenBack(db, tokens[|tokens| - 1]) then 1 else 0
  }

  /** What a dequeue hands its guard: claims of different rows of this queue. */
  ghost predicate DistinctClaims(db: Db, queue: Queue, claims: seq<Token>) {
    && (forall i :: 0 <= i < |claims| && claims[i].id in db.jobs ==> db.jobs[claims[i].id].queue == queue)
    && (forall i, j :: 0 <= i < j < |claims| ==> claims[i].id != claims[j].id)
  }

  ghost predicate TookActive(before: Db, claims: seq<Token>, n: nat, id: JobId) requires n <= |claims| {
    exists i :: 0 <= i < n && claims[i].id == id && ActiveWith(before, claims[i])
  }

  /** The claim is settled for good: a refund for an attempt that never ran, at once and with its error. */
  predicate Resolved(before: Db, after: Db, token: Token) {
    && !ActiveWith(after, token)
    && (ActiveWith(before, token) ==>
          SettledRow(before.jobs[token.id], RowIn(after, token.id), "dequeue commit was not acknowledged", true, 0, before.now))
  }

  /** The pass after its first `i` claims. */
  ghost predicate PassState(before: Db, claims: seq<Token>, i: nat, db: Db) {
    match db case Db(_, workers, now, _) =>
      && i <= |claims| && workers == before.workers && now == before.now
      && (forall j :: 0 <= j < i ==> Resolved(before, db, claims[j]))
      && (forall j :: i <= j < |claims| ==> SameRow(before, db, claims[j].id))
      && (forall id <- before.jobs :: SameRow(before, db, id) || TookActive(before, claims, i, id))
  }

  lemma PassRound(before: Db, queue: Queue, claims: seq<Token>, i: nat, db: Db, after: Db, outcome: Resolution)
    requires DistinctClaims(before, queue, claims) && i < |claims| && PassState(before, claims, i, db)
    requires Settles(db, after, claims[i], "dequeue commit was not acknowledged", true, 0, outcome)
    ensures PassState(before, claims, i + 1, after)
    ensures outcome.Requeued? <==> GivenBack(before, claims[i])
    ensures outcome.AbortedClaim? <==> ActiveWith(before, claims[i]) && !GivenBack(before, claims[i])
  {
    assert SameRow(before, db, claims[i].id);
    forall j | 0 <= j < i ensures Resolved(before, after, claims[j]) {
      assert Resolved(before, db, claims[j]) && SameRow(db, after, claims[j].id);
    }
    forall j | i < j < |claims| ensures SameRow(before, after, claims[j].id) {
      assert SameRow(before, db, claims[j].id) && SameRow(db, after, claims[j].id);
    }
    forall id <- before.jobs ensures SameRow(before, after, id) || TookActive(before, claims, i + 1, id) {
      if id == claims[i].id {
        assert SameRow(db, after, id) || ActiveWith(before, claims[i]);
      } else {
        assert SameRow(db, after, id);
      }
    }
  }

  class Database {
    const queue: Queue
    const grace: nat
    var db: Db
    var retried: nat
    var aborted: nat

    ghost predicate Valid() reads this { Inv(db) }

    constructor (queue: Queue, grace: nat, db: Db)
      requires Inv(db)
      ensures Valid() && this.queue == queue && this.grace == grace && this.db == db && retried == 0 && aborted == 0
    {
      this.queue, this.grace, this.db, retried, aborted := queue, grace, db, 0, 0;
    }

    method Execute(step: Step) returns (accepted: bool)
      requires Valid() && Legal(db, step)
      modifies this`db
      ensures Valid() && db == Apply(grace, old(db), step) && accepted == Accepts(grace, old(db), step)
    {
      accepted := Accepts(grace, db, step);
      StepKeepsInv(grace, db, step);
      db := Apply(grace, db, step);
    }

    /** A statement over many rows is the sequence of its row steps: each row ends as if its own step had run
        alone on the tables the statement found. Answers which rows it took. */
    method ExecuteBatch(steps: seq<Step>) returns (taken: seq<bool>)
      requires Valid() && Batch(steps)
      modifies this`db
      ensures Valid() && BatchEffect(grace, old(db), steps, db)
      ensures |taken| == |steps| && forall i :: 0 <= i < |steps| ==> taken[i] == Accepts(grace, old(db), steps[i])
    {
      taken := [];
      for i := 0 to |steps|
        invariant Valid() && BatchEffect(grace, old(db), steps[..i], db)
        invariant RestIsAsFound(old(db), steps, i, db)
        invariant |taken| == i && forall j :: 0 <= j < i ==> taken[j] == Accepts(grace, old(db), steps[j])
      {
        BatchStep(grace, old(db), steps, i, db);
        var accepted := Execute(steps[i]);
        taken := taken + [accepted];
      }
      assert steps[..|steps|] == steps;
    }

    /** One pass of the unacknowledged-claim resolver. Afterwards no row is active under any of the claims. An attempt that
        can still be refunded is queued again on its original schedule with one more attempt granted, any other active
        row is ended, and they are counted apart; every other row is as it was. */
    method RequeueUnacknowledgedClaims(claims: seq<Token>) returns (requeued: nat)
      requires Valid() && DistinctClaims(db, queue, claims)
      modifies this`db, this`aborted
      ensures Valid() && db.workers == old(db.workers) && db.now == old(db.now)
      ensures forall i :: 0 <= i < |claims| ==> Resolved(old(db), db, claims[i])
      ensures forall id <- old(db.jobs) :: !SameRow(old(db), db, id) ==>
                exists i :: 0 <= i < |claims| && claims[i].id == id && ActiveWith(old(db), claims[i])
      ensures requeued == CountGivenBack(old(db), claims)
      ensures requeued + aborted - old(aborted) == CountActive(old(db), claims)
    {
      requeued := 0;
      for i := 0 to |claims|
        invariant Valid() && PassState(old(db), claims, i, db)
        invariant requeued == CountGivenBack(old(db), claims[..i])
        invariant requeued + aborted - old(aborted) == CountActive(old(db), claims[..i])
      {
        ghost var before := db;
        assert claims[..i + 1][..i] == claims[..i];
        assert SameRow(old(db), db, claims[i].id);
        var outcome := ResolveClaim(claims[i], "dequeue commit was not acknowledged", true, 0);
        PassRound(old(db), queue, claims, i, before, db, outcome);
        if outcome.Requeued? { requeued := requeued + 1; }
        if outcome.AbortedClaim? { aborted := aborted + 1; }
      }
      assert claims[..|claims|] == claims;
    }

    /** The requeue with its abort fallback, which both resolvers run for one claim. */
    method ResolveClaim(token: Token, reason: string, refund: bool, delay: nat) returns (outcome: Resolution)
      requires Valid() && (token.id in db.jobs ==> db.jobs[token.id].queue == queue)
      modifies this`db
      ensures Valid() && Settles(old(db), db, token, reason, refund, delay, outcome)
      ensures token.id in db.jobs ==> token.id in old(db).jobs && db.jobs[token.id].queue == queue
    {
      var requeue := Requeue(queue, token, Some(reason), delay, Guards(true, true, refund, false));
      RequeueSettles(grace, db, queue, token, reason, refund, delay);
      var requeued := Execute(requeue);
      if requeued { return Requeued; }
      var abort := AbortUnsettled(queue, token, reason);
      AbortSettles(grace, db, queue, token, reason, refund, delay);
      var finished := Execute(abort);
      outcome := if finished then AbortedClaim else Unchanged;
    }
  }

  /** The first statement settles what can be handed back, or changes nothing; */
  lemma RequeueSettles(grace: nat, db: Db, queue: Queue, token: Token, reason: string, refund: bool, delay: nat)
    requires Inv(db) && (token.id in db.jobs ==> db.jobs[token.id].queue == queue)
    ensures var step := Requeue(queue, token, Some(reason), delay, Guards(true, true, refund, false));
            var after := Apply(grace, db, step);
            if Accepts(grace, db, step) then
              Settles(db, after, token, reason, refund, delay, Requeued) && token.id in after.jobs && after.jobs[token.id].queue == queue
            else after == db && (ActiveWith(db, token) ==> !Returnable(db.jobs[token.id], refund))
  {
    var guards := Guards(true, true, refund, false);
    RowStepIsLocal(grace, db, Requeue(queue, token, Some(reason), delay, guards));
    RequeueHandsBack(grace, db, queue, token, Some(reason), delay, guards);
    if token.id in db.jobs { assert RowOk(db.jobs[token.id]); }
  }

  /** the second ends the rest. */
  lemma AbortSettles(grace: nat, db: Db, queue: Queue, token: Token, reason: string, refund: bool, delay: nat)
    requires Inv(db) && (token.id in db.jobs ==> db.jobs[token.id].queue == queue)
    requires ActiveWith(db, token) ==> !Returnable(db.jobs[token.id], refund)
    ensures var step := AbortUnsettled(queue, token, reason); var after := Apply(grace, db, step);
            && Settles(db, after, token, reason, refund, delay, if Accepts(grace, db, step) then AbortedClaim else Unchanged)
            && (token.id in after.jobs ==> token.id in db.jobs && after.jobs[token.id].queue == queue)
  {
    RowStepIsLocal(grace, db, AbortUnsettled(queue, token, reason));
    UnsettledEnds(grace, db, queue, token, reason);
  }

  /** The rows from step `i` on are as the statement found them. */
  ghost predicate RestIsAsFound(before: Db, steps: seq<Step>, i: nat, db: Db) {
    forall j :: i <= j < |steps| && Target(steps[j]).Some? ==> SameRow(before, db, Target(steps[j]).value)
  }

  lemma RestUntouched(grace: nat, before: Db, steps: seq<Step>, i: nat, db: Db, after: Db)
    requires i < |steps| && Batch(steps) && RestIsAsFound(before, steps, i, db) && Local(grace, db, steps[i], after)
    ensures RestIsAsFound(before, steps, i + 1, after)
  {
    forall j | i < j < |steps| && Target(steps[j]).Some? ensures SameRow(before, after, Target(steps[j]).value) {
      assert SameRow(before, db, Target(steps[j]).value) && Target(steps[i]) != Target(steps[j]);
    }
  }

  datatype Resolution = Requeued | AbortedClaim | Unchanged

  /** The loop step of `ExecuteBatch`: the rows already done, */
  lemma ExtendDone(grace: nat, before: Db, steps: seq<Step>, i: nat, db: Db, after: Db)
    requires i < |steps| && Batch(steps) && BatchEffect(grace, before, steps[..i], db) && Local(grace, db, steps[i], after)
    requires SameRow(before, db, Target(steps[i]).value)
    ensures forall j :: 0 <= j <= i ==> RowEffectOf(grace, before, steps[j], after)
  {
    var done := steps[..i];
    GuardIsLocal(grace, before, db, steps[i]);
    forall j | 0 <= j < i ensures RowEffectOf(grace, before, steps[j], after) {
      assert RowEffectOf(grace, before, done[j], db) && Target(steps[j]) != Target(steps[i]);
    }
  }

  /** and the rows it never names. */
  lemma ExtendUntouched(grace: nat, before: Db, steps: seq<Step>, i: nat, db: Db, after: Db, id: JobId)
    requires i < |steps| && BatchEffect(grace, before, steps[..i], db) && Local(grace, db, steps[i], after)
    requires id in before.jobs && forall j :: 0 <= j <= i ==> Target(steps[j]) != Some(id)
    ensures id in after.jobs && after.jobs[id] == before.jobs[id]
  {
    var done := steps[..i];
    forall j | 0 <= j < |done| ensures Target(done[j]) != Some(id) { assert done[j] == steps[j]; }
  }

  lemma ExtendBatch(grace: nat, before: Db, steps: seq<Step>, i: nat, db: Db, after: Db)
    requires i < |steps| && Batch(steps) && BatchEffect(grace, before, steps[..i], db) && Local(grace, db, steps[i], after)
    requires SameRow(before, db, Target(steps[i]).value)
    ensures BatchEffect(grace, before, steps[..i + 1], after)
  {
    var more := steps[..i + 1];
    ExtendDone(grace, before, steps, i, db, after);
    forall id <- before.jobs | forall j :: 0 <= j < |more| ==> Target(more[j]) != Some(id)
      ensures id in after.jobs && after.jobs[id] == before.jobs[id]
    {
      forall j | 0 <= j <= i ensures Target(steps[j]) != Some(id) { assert more[j] == steps[j]; }
      ExtendUntouched(grace, before, steps, i, db, after, id);
    }
  }

  lemma BatchStep(grace: nat, before: Db, steps: seq<Step>, i: nat, db: Db)
    requires i < |steps| && Batch(steps) && BatchEffect(grace, before, steps[..i], db) && RestIsAsFound(before, steps, i, db)
    ensures Legal(db, steps[i]) && Accepts(grace, db, steps[i]) == Accepts(grace, before, steps[i])
    ensures BatchEffect(grace, before, steps[..i + 1], Apply(grace, db, steps[i]))
    ensures RestIsAsFound(before, steps, i + 1, Apply(grace, db, steps[i]))
  {
    var after := Apply(grace, db, steps[i]);
    GuardIsLocal(grace, before, db, steps[i]);
    RowStepIsLocal(grace, db, steps[i]);
    ExtendBatch(grace, before, steps, i, db, after);
    RestUntouched(grace, before, steps, i, db, after);
  }

  /** A consumer's claim on one attempt. Only a transition it made settles it; a refusal does not. */
  class Attempt {
    const database: Database
    const token: Token
    var settled: bool

    ghost predicate Valid() reads this, database {
      database.Valid() && (token.id in database.db.jobs ==> database.db.jobs[token.id].queue == database.queue)
    }

    constructor (database: Database, token: Token)
      requires database.Valid() && (token.id in database.db.jobs ==> database.db.jobs[token.id].queue == database.queue)
      ensures Valid() && this.database == database && this.token == token && !settled
    {
      this.database, this.token, settled := database, token, false;
    }

    /** A finish is made exactly while the claim is active and no user asked for an abort it does not report, a retry exactly
        while it is active, not being aborted by a user, and has an attempt left; only that settles the attempt. */
    method Transition(step: Step) returns (made: bool)
      requires Valid() && (step.Finish? || (step.Requeue? && step.guards == Guards(true, true, false, false)))
      requires Legal(database.db, step) && step.token == token && step.queue == database.queue
      modifies this`settled, database`db
      ensures Valid() && settled == (old(settled) || made)
      ensures made <==> ActiveWith(old(database.db), token) && Reportable(old(database.db).jobs[token.id], step)
      ensures made ==> Reported(old(database.db).jobs[token.id], RowIn(database.db, token.id), step, old(database.db).now)
      ensures forall id: JobId :: id != token.id || !made ==> SameRow(old(database.db), database.db, id)
    {
      ghost var db := database.db;
      TransitionReports(database.grace, db, step);
      made := database.Execute(step);
      if made { settled := true; }
      RowEffect(database.grace, db, step, token.id);
    }

    /** Dropping an attempt that never settled spends it: the row goes back to the queue after the job's delay if attempts
        are left, and is ended otherwise. Dropping a settled one does nothing. */
    method Drop(delay: nat)
      requires Valid()
      modifies database`db
      ensures Valid()
      ensures !settled ==> !ActiveWith(database.db, token)
      ensures !settled && ActiveWith(old(database.db), token) ==>
                SettledRow(old(database.db).jobs[token.id], RowIn(database.db, token.id), "attempt dropped without settlement",
                           false, delay, old(database.db).now)
      ensures settled || !ActiveWith(old(database.db), token) ==> database.db == old(database.db)
      ensures forall id: JobId :: id != token.id ==> SameRow(old(database.db), database.db, id)
    {
      if !settled {
        var outcome := database.ResolveClaim(token, "attempt dropped without settlement", false, delay);
      }
    }
  }

  /** Whether the owner of this active row can still report the step. */
  predicate Reportable(row: Row, step: Step) {
    var aborted := row.status == Aborting && row.result.None?;
    match step
    case Finish(_, _, status, _, _) => !aborted || status == Aborted
    case Requeue(_, _, _, _, _) => !aborted && row.attempts < row.maxAttempts
    case _ => false
  }

  /** The row as the report leaves it. */
  predicate Reported(row: Row, after: Option<Row>, step: Step, now: Time) {
    match step
    case Finish(_, _, status, result, error) =>
      if Retention(row, status) == Some(0) then after.None?
      else after.Some? && Stored(row, after.value, status, result, if error.None? && status != Complete then row.error else error, now)
    case Requeue(_, _, error, delay, _) => after.Some? && HandedBack(row, after.value, error, false, delay, now)
    case _ => false
  }

  lemma TransitionReports(grace: nat, db: Db, step: Step)
    requires Inv(db) && Legal(db, step) && (step.Finish? || (step.Requeue? && step.guards == Guards(true, true, false, false)))
    requires step.token.id in db.jobs ==> db.jobs[step.token.id].queue == step.queue
    ensures var after := Apply(grace, db, step);
            && (Accepts(grace, db, step) <==> ActiveWith(db, step.token) && Reportable(db.jobs[step.token.id], step))
            && (Accepts(grace, db, step) ==> Reported(db.jobs[step.token.id], RowIn(after, step.token.id), step, db.now))
            && (forall id: JobId :: id != step.token.id || !Accepts(grace, db, step) ==> SameRow(db, after, id))
  {
    if step.token.id in db.jobs { assert RowOk(db.jobs[step.token.id]); }
    if step.Finish? {
      FinishStores(grace, db, step.queue, step.token, step.status, step.result, step.error);
    } else {
      RequeueHandsBack(grace, db, step.queue, step.token, step.error, step.delay, step.guards);
    }
  }
}
