/**
 Fencing by `(id, attempts, worker_id)` over whole runs: committed claims never share an
 attempt number, a claim that stops matching its row never matches it again, and a claim the
 abort poll reports lost has every later write refused.
 */
module Fencing {
  import opened Rows
  import opened Lifecycle
  import opened Invariants

  /** What `aborting_of` tells a worker about one of its claims. */
  datatype Poll = Missing | Superseded | AbortRequested(swept: bool, reason: Option<string>) | NothingToSignal

  function PollClaim(db: Db, queue: Queue, worker: WorkerId, id: JobId, attempts: nat): Poll {
    if !db.Has(queue, id) then Missing else
    var row := db.jobs[id];
    if row.attempts != attempts || row.workerId != Some(worker) then Superseded
    else if row.status.Aborting? || row.status.Aborted? then AbortRequested(row.SweptMarked(), row.error)
    else NothingToSignal
  }

  /** The writes an attempt can still make with its claim. */
  predicate AttemptWrite(step: Step, queue: Queue, token: Token) {
    (step.Finish? || step.Requeue? || step.AbortUnsettled?) && step.queue == queue && step.token == token
  }

  /** The claim a committed dequeue hands to its worker. */
  predicate ClaimedAt(grace: nat, db: Db, step: Step, token: Token) {
    && step.Claim? && Accepts(grace, db, step)
    && token == Token(step.id, db.jobs[step.id].attempts + 1, Some(step.worker))
  }

  lemma ClaimMatches(grace: nat, db: Db, step: Step, token: Token)
    requires Inv(db) && ClaimedAt(grace, db, step, token)
    ensures Apply(grace, db, step).Owned(step.queue, token) && token.id in db.issued
    ensures Apply(grace, db, step).jobs[token.id].status.Running?
  {
  }

  /** A claim that matched its row and then stops matching it never matches again. */
  lemma StaleForever(grace: nat, states: seq<Db>, steps: seq<Step>, i: nat, j: nat, k: nat, queue: Queue, token: Token)
    requires IsRun(grace, states, steps) && Inv(states[0]) && i <= j <= k < |states|
    requires token.worker.Some? && states[i].Owned(queue, token)
    requires !states[j].Owned(queue, token)
    ensures !states[k].Owned(queue, token)
  {
    RunKeepsInv(grace, states, steps, i);
    RunEvolves(grace, states, steps, i, j, token.id);
    RunEvolves(grace, states, steps, j, k, token.id);
  }

  /** Two committed claims of one job, anywhere in a run, carry different attempt numbers. */
  lemma ClaimsNeverShareAnAttempt(grace: nat, states: seq<Db>, steps: seq<Step>, i: nat, j: nat,
                                  first: Token, second: Token)
    requires IsRun(grace, states, steps) && Inv(states[0]) && i < j < |steps|
    requires ClaimedAt(grace, states[i], steps[i], first) && ClaimedAt(grace, states[j], steps[j], second)
    requires first.id == second.id
    ensures first.attempts < second.attempts
  {
    RunKeepsInv(grace, states, steps, i);
    assert StepAt(grace, states, steps, i);
    ClaimMatches(grace, states[i], steps[i], first);
    RunEvolves(grace, states, steps, i + 1, j, first.id);
  }

  /** The poll reports a claim missing or superseded exactly when the row no longer matches it, and of a claim that matches
      it reports the abort, with its stored reason, exactly when one was asked for or has happened. */
  lemma PollIsExact(db: Db, queue: Queue, worker: WorkerId, id: JobId, attempts: nat)
    ensures var poll := PollClaim(db, queue, worker, id, attempts);
            && ((poll.Missing? || poll.Superseded?) <==> !db.Owned(queue, Token(id, attempts, Some(worker))))
            && (poll.Missing? <==> id !in db.jobs || db.jobs[id].queue != queue)
            && (db.Owned(queue, Token(id, attempts, Some(worker))) ==>
                  var row := db.jobs[id];
                  && (poll.NothingToSignal? <==> row.status != Aborting && row.status != Aborted)
                  && (poll.AbortRequested? ==>
                        && poll.reason == row.error
                        && (poll.swept <==> row.error == Some("swept") && row.result == Some(SWEPT_RESULT))))
  {
  }

  datatype Claimed = Claimed(id: JobId, attempts: nat)

  datatype AbortingAttempt = AbortingAttempt(claim: Claimed, swept: bool, reason: Option<string>)

  /** The poll over all the claims of one worker. Rows are read without being consumed, so one row can answer two
      claims of it. */
  method AbortingOf(db: Db, queue: Queue, worker: WorkerId, claims: seq<Claimed>)
      returns (aborting: seq<AbortingAttempt>, missing: seq<Claimed>, superseded: seq<Claimed>)
    ensures forall c :: c in missing <==> c in claims && PollClaim(db, queue, worker, c.id, c.attempts).Missing?
    ensures forall c :: c in superseded <==> c in claims && PollClaim(db, queue, worker, c.id, c.attempts).Superseded?
    ensures forall a :: a in aborting <==>
              a.claim in claims && PollClaim(db, queue, worker, a.claim.id, a.claim.attempts) == AbortRequested(a.swept, a.reason)
  {
    aborting, missing, superseded := [], [], [];
    for i := 0 to |claims|
      invariant forall c :: c in missing <==> c in claims[..i] && PollClaim(db, queue, worker, c.id, c.attempts).Missing?
      invariant forall c :: c in superseded <==> c in claims[..i] && PollClaim(db, queue, worker, c.id, c.attempts).Superseded?
      invariant forall a :: a in aborting <==>
                  a.claim in claims[..i] && PollClaim(db, queue, worker, a.claim.id, a.claim.attempts) == AbortRequested(a.swept, a.reason)
    {
      var claim := claims[i];
      assert claims[..i + 1] == claims[..i] + [claim];
      if claim.id !in db.jobs || db.jobs[claim.id].queue != queue {
        missing := missing + [claim];
      } else {
        var row := db.jobs[claim.id];
        if row.attempts != claim.attempts || row.workerId != Some(worker) {
          superseded := superseded + [claim];
        } else if row.status.Aborting? || row.status.Aborted? {
          aborting := aborting + [AbortingAttempt(claim, row.SweptMarked(), row.error)];
        }
      }
    }
    assert claims[..|claims|] == claims;
  }

  /** Once the poll reports a committed claim missing or superseded, every write of that attempt
      is refused, and changes no row, in every continuation of the run. */
  lemma LostClaimIsFenced(grace: nat, states: seq<Db>, steps: seq<Step>, claim: nat, poll: nat, later: nat,
                          token: Token, write: Step)
    requires IsRun(grace, states, steps) && Inv(states[0]) && claim < poll <= later < |states|
    requires ClaimedAt(grace, states[claim], steps[claim], token)
    requires var answer := PollClaim(states[poll], steps[claim].queue, steps[claim].worker, token.id, token.attempts);
             answer.Missing? || answer.Superseded?
    requires AttemptWrite(write, steps[claim].queue, token)
    ensures !Accepts(grace, states[later], write)
    ensures Apply(grace, states[later], write).jobs == states[later].jobs
  {
    RunKeepsInv(grace, states, steps, claim);
    assert StepAt(grace, states, steps, claim);
    ClaimMatches(grace, states[claim], steps[claim], token);
    PollIsExact(states[poll], steps[claim].queue, steps[claim].worker, token.id, token.attempts);
    StaleForever(grace, states, steps, claim + 1, poll, later, steps[claim].queue, token);
  }
}
