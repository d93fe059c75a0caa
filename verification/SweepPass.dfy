/**
 One sweep pass without interference: purge the leases expired for twice the grace, scan for stuck
 rows, mark the running ones, then recover the abandoned ones in two batches.
 */
module SweepPass {
  import opened Rows
  import opened Lifecycle
  import opened Invariants
  import opened Statements
  import opened Effects

  predicate LeasePurgeable(db: Db, queue: Queue, grace: nat, worker: WorkerId) {
    worker in db.workers && db.workers[worker].queue == queue && db.workers[worker].expiresAt <= db.now - 2 * grace
  }

  /** The WHERE clause of the stuck-job scan. */
  predicate Scanned(db: Db, queue: Queue, grace: nat, id: JobId) {
    && db.Has(queue, id) && db.jobs[id].status.Active()
    && var row := db.jobs[id];
       var lease := db.LeaseExpiry(row.workerId, queue);
       && (JobIsStuck(row, grace, lease, db.now) || row.SweptMarked())
       && (row.status.Running? || lease.None? || lease.value <= db.now
           || (row.dedupeKey.None? && !(row.SweptMarked() && row.Retryable())))
  }

  predicate OwnerGone(db: Db, queue: Queue, id: JobId) requires id in db.jobs {
    !db.LeasePresent(db.jobs[id].workerId, queue)
  }

  function TokenAt(db: Db, id: JobId): Token requires id in db.jobs {
    Token(id, db.jobs[id].attempts, db.jobs[id].workerId)
  }

  /** Phase two's choice for a row it may take, from the scan's snapshot. */
  predicate Retries(db: Db, id: JobId) requires id in db.jobs {
    (db.jobs[id].status.Running? || db.jobs[id].SweptMarked()) && db.jobs[id].Retryable()
  }

  predicate Abandoned(db: Db, queue: Queue, id: JobId) requires id in db.jobs {
    db.jobs[id].status.Aborting? || OwnerGone(db, queue, id)
  }

  function Recovery(db: Db, queue: Queue, id: JobId, delay: nat): Step requires id in db.jobs {
    if Retries(db, id) then SweepRetry(queue, TokenAt(db, id), delay) else SweepAbort(queue, TokenAt(db, id))
  }

  /** What a pass that scanned the row leaves of it: a live owner's running row is only marked, a dead owner's
      is marked and recovered at once, an aborting row is recovered if its window has passed. */
  function PassRow(db: Db, queue: Queue, grace: nat, id: JobId, delay: nat): Option<Row> requires id in db.jobs {
    var row := db.jobs[id];
    if row.status.Running? then
      var marked := MarkedRow(row, db.now);
      if OwnerGone(db, queue, id) then Rewritten(Recovery(db, queue, id, delay), marked, db.now) else Some(marked)
    else if Accepts(grace, db, Recovery(db, queue, id, delay)) then Rewritten(Recovery(db, queue, id, delay), row, db.now)
    else Some(row)
  }

  ghost predicate Distinct(s: seq<JobId>) { forall i, j :: 0 <= i < j < |s| ==> s[i] != s[j] }

  /** `partition`, one side of it. */
  function Keep(s: seq<JobId>, p: JobId -> bool): (kept: seq<JobId>)
    ensures forall x :: x in kept <==> x in s && p(x)
    ensures Distinct(s) ==> Distinct(kept)
  {
    if s == [] then [] else
    var rest := Keep(s[1..], p);
    assert s == [s[0]] + s[1..];
    if p(s[0]) then [s[0]] + rest else rest
  }

  predicate AllIn(db: Db, ids: seq<JobId>) { forall id <- ids :: id in db.jobs }

  /** The three batches, with the claim each row showed in the scan. */
  function Marks(db: Db, queue: Queue, ids: seq<JobId>): (steps: seq<Step>) requires AllIn(db, ids)
    ensures |steps| == |ids| && forall i :: 0 <= i < |ids| ==> steps[i] == SweepMark(queue, TokenAt(db, ids[i]))
  {
    seq(|ids|, i requires 0 <= i < |ids| => SweepMark(queue, TokenAt(db, ids[i])))
  }

  function RetryBatch(db: Db, queue: Queue, ids: seq<JobId>, delays: JobId -> nat): (steps: seq<Step>) requires AllIn(db, ids)
    ensures |steps| == |ids| && forall i :: 0 <= i < |ids| ==> steps[i] == SweepRetry(queue, TokenAt(db, ids[i]), delays(ids[i]))
  {
    seq(|ids|, i requires 0 <= i < |ids| => SweepRetry(queue, TokenAt(db, ids[i]), delays(ids[i])))
  }

  function AbortBatch(db: Db, queue: Queue, ids: seq<JobId>): (steps: seq<Step>) requires AllIn(db, ids)
    ensures |steps| == |ids| && forall i :: 0 <= i < |ids| ==> steps[i] == SweepAbort(queue, TokenAt(db, ids[i]))
  {
    seq(|ids|, i requires 0 <= i < |ids| => SweepAbort(queue, TokenAt(db, ids[i])))
  }

  /** The partitions of one scan, as step batches. */
  function PhaseOne(db: Db, queue: Queue, examined: seq<JobId>): seq<Step> {
    Marks(db, queue, Keep(examined, id => id in db.jobs && db.jobs[id].status.Running?))
  }

  function PhaseTwoRetries(db: Db, queue: Queue, examined: seq<JobId>, delays: JobId -> nat): seq<Step> {
    RetryBatch(db, queue, Keep(examined, id => id in db.jobs && Abandoned(db, queue, id) && Retries(db, id)), delays)
  }

  function PhaseTwoAborts(db: Db, queue: Queue, examined: seq<JobId>): seq<Step> {
    AbortBatch(db, queue, Keep(examined, id => id in db.jobs && Abandoned(db, queue, id) && !Retries(db, id)))
  }

  lemma PhasesAreBatches(db: Db, queue: Queue, examined: seq<JobId>, delays: JobId -> nat)
    requires Distinct(examined)
    ensures Batch(PhaseOne(db, queue, examined))
    ensures Batch(PhaseTwoRetries(db, queue, examined, delays)) && Batch(PhaseTwoAborts(db, queue, examined))
  {
    OneStepPerRow(Keep(examined, id => id in db.jobs && db.jobs[id].status.Running?), PhaseOne(db, queue, examined));
    OneStepPerRow(Keep(examined, id => id in db.jobs && Abandoned(db, queue, id) && Retries(db, id)),
                  PhaseTwoRetries(db, queue, examined, delays));
    OneStepPerRow(Keep(examined, id => id in db.jobs && Abandoned(db, queue, id) && !Retries(db, id)),
                  PhaseTwoAborts(db, queue, examined));
  }

  /** Which step of each batch names a given row. */
  lemma MarkStep(db: Db, queue: Queue, examined: seq<JobId>, id: JobId)
    requires id in db.jobs
    ensures Names(PhaseOne(db, queue, examined), id,
                  if id in examined && db.jobs[id].status.Running? then Some(SweepMark(queue, TokenAt(db, id))) else None)
  {
    NamedOnce(Keep(examined, id => id in db.jobs && db.jobs[id].status.Running?), PhaseOne(db, queue, examined), id,
              SweepMark(queue, TokenAt(db, id)));
  }

  lemma RetryStep(db: Db, queue: Queue, examined: seq<JobId>, delays: JobId -> nat, id: JobId)
    requires id in db.jobs
    ensures Names(PhaseTwoRetries(db, queue, examined, delays), id,
                  if id in examined && Abandoned(db, queue, id) && Retries(db, id)
                  then Some(SweepRetry(queue, TokenAt(db, id), delays(id))) else None)
  {
    NamedOnce(Keep(examined, id => id in db.jobs && Abandoned(db, queue, id) && Retries(db, id)),
              PhaseTwoRetries(db, queue, examined, delays), id, SweepRetry(queue, TokenAt(db, id), delays(id)));
  }

  lemma AbortStep(db: Db, queue: Queue, examined: seq<JobId>, id: JobId)
    requires id in db.jobs
    ensures Names(PhaseTwoAborts(db, queue, examined), id,
                  if id in examined && Abandoned(db, queue, id) && !Retries(db, id)
                  then Some(SweepAbort(queue, TokenAt(db, id))) else None)
  {
    NamedOnce(Keep(examined, id => id in db.jobs && Abandoned(db, queue, id) && !Retries(db, id)),
              PhaseTwoAborts(db, queue, examined), id, SweepAbort(queue, TokenAt(db, id)));
  }

  lemma NamedOnce(ids: seq<JobId>, steps: seq<Step>, id: JobId, step: Step)
    requires |steps| == |ids| && forall i :: 0 <= i < |ids| ==> Target(steps[i]) == Some(ids[i])
    requires Target(step) == Some(id) && forall i :: 0 <= i < |ids| && ids[i] == id ==> steps[i] == step
    ensures Names(steps, id, if id in ids then Some(step) else None)
  {
    if id in ids { var i :| 0 <= i < |ids| && ids[i] == id; assert steps[i] == step; }
  }

  /** `step` is the only step of the batch aimed at `id`; `None` if there is none. */
  ghost predicate Names(steps: seq<Step>, id: JobId, step: Option<Step>) {
    && (step.Some? ==> step.value in steps && Target(step.value) == Some(id))
    && (step.None? ==> forall i :: 0 <= i < |steps| ==> Target(steps[i]) != Some(id))
  }

  lemma OneStepPerRow(ids: seq<JobId>, steps: seq<Step>)
    requires Distinct(ids) && |steps| == |ids|
    requires forall i :: 0 <= i < |ids| ==> RowStep(steps[i]) && Target(steps[i]) == Some(ids[i])
    ensures Batch(steps)
  {
  }

  class Sweeper {
    const database: Database

    constructor (database: Database) ensures this.database == database { this.database := database; }

    /** Deletes up to `batch` leases, all of them expired for twice the grace. */
    method PurgeWorkerLeases(batch: nat) returns (purged: nat)
      requires database.Valid()
      modifies database`db
      ensures database.Valid() && database.db == old(database.db).(workers := database.db.workers)
      ensures forall w <- database.db.workers :: w in old(database.db).workers && database.db.workers[w] == old(database.db).workers[w]
      ensures forall w <- old(database.db).workers ::
                w in database.db.workers || LeasePurgeable(old(database.db), database.queue, database.grace, w)
      ensures purged <= batch
      ensures purged < batch ==> forall w <- database.db.workers :: !LeasePurgeable(database.db, database.queue, database.grace, w)
    {
      purged := 0;
      var expired: set<WorkerId> := set w <- database.db.workers | LeasePurgeable(database.db, database.queue, database.grace, w);
      while expired != {} && purged < batch
        invariant database.Valid() && database.db == old(database.db).(workers := database.db.workers)
        invariant forall w <- database.db.workers :: w in old(database.db).workers && database.db.workers[w] == old(database.db).workers[w]
        invariant forall w <- old(database.db).workers ::
                    w in database.db.workers || LeasePurgeable(old(database.db), database.queue, database.grace, w)
        invariant forall w: WorkerId :: w in expired <==> LeasePurgeable(database.db, database.queue, database.grace, w)
        invariant purged <= batch
        decreases batch - purged
      {
        var worker: WorkerId :| worker in expired;
        var _ := database.Execute(PurgeLease(database.queue, worker));
        expired := expired - {worker};
        purged := purged + 1;
      }
    }

    /** Up to `batch` rows the scan selects; all of them if fewer. */
    method Scan(batch: nat) returns (ids: seq<JobId>)
      ensures Distinct(ids) && |ids| <= batch
      ensures forall id <- ids :: Scanned(database.db, database.queue, database.grace, id)
      ensures |ids| < batch ==> forall id <- database.db.jobs :: Scanned(database.db, database.queue, database.grace, id) ==> id in ids
    {
      ids := [];
      var left: set<JobId> := set id <- database.db.jobs | Scanned(database.db, database.queue, database.grace, id);
      while left != {} && |ids| < batch
        invariant Distinct(ids) && |ids| <= batch
        invariant forall id: JobId :: id in left || id in ids <==> Scanned(database.db, database.queue, database.grace, id)
        invariant forall id <- ids :: id !in left
        decreases batch - |ids|
      {
        var id: JobId :| id in left;
        left := left - {id};
        ids := ids + [id];
      }
    }

    /** Both phases over one scan: every scanned row is swept and every other row is untouched; with room in the batch
        that is every row there is. */
    method RecoverStuckJobs(batch: nat, delays: JobId -> nat) returns (examined: seq<JobId>)
      requires database.Valid()
      modifies database`db
      ensures database.Valid() && |examined| <= batch
      ensures database.db.workers == old(database.db).workers && database.db.now == old(database.db).now
      ensures forall id <- examined :: Scanned(old(database.db), database.queue, database.grace, id)
      ensures |examined| < batch ==>
                forall id <- old(database.db).jobs :: Scanned(old(database.db), database.queue, database.grace, id) ==> id in examined
      ensures forall id <- old(database.db).jobs ::
                || Swept(old(database.db), database.queue, database.grace, id, delays(id), RowIn(database.db, id))
                || (|examined| == batch && RowIn(database.db, id) == Some(old(database.db).jobs[id]))
    {
      examined := Scan(batch);
      ghost var db0 := database.db;
      var marks, retries, aborts := PhaseOne(database.db, database.queue, examined),
        PhaseTwoRetries(database.db, database.queue, examined, delays), PhaseTwoAborts(database.db, database.queue, examined);
      PhasesAreBatches(database.db, database.queue, examined, delays);
      var _ := database.ExecuteBatch(marks);
      ghost var db1 := database.db;
      var _ := database.ExecuteBatch(retries);
      ghost var db2 := database.db;
      var _ := database.ExecuteBatch(aborts);
      forall id <- db0.jobs ensures
        || Swept(db0, database.queue, database.grace, id, delays(id), RowIn(database.db, id))
        || (|examined| == batch && RowIn(database.db, id) == Some(db0.jobs[id]))
      {
        PassOfOneRow(database.grace, db0, db1, db2, database.db, database.queue, examined, delays, id);
        if id in examined {
          ScannedIsSwept(db0, database.queue, database.grace, id, delays(id));
        } else if |examined| < batch {
          UnscannedIsSwept(db0, database.queue, database.grace, id, delays(id));
        }
      }
    }

    /** A whole pass with room in its batches and nobody else writing: every lease expired for twice the grace goes, every row
        is swept as the leases then stand, and so every dead owner's stuck row is recovered in this one pass. */
    method Pass(batch: nat, delays: JobId -> nat) returns (purged: nat, examined: nat)
      requires database.Valid()
      modifies database`db
      ensures database.Valid() && purged <= batch && examined <= batch
      ensures purged < batch && examined < batch ==>
                forall id <- old(database.db).jobs ::
                  && Swept(AfterPurge(old(database.db), database.queue, database.grace), database.queue, database.grace, id,
                           delays(id), RowIn(database.db, id))
                  && (DeadOwner(old(database.db), database.queue, database.grace, id) ==>
                        RecoveredFrom(old(database.db).jobs[id], old(database.db).now, delays(id), RowIn(database.db, id)))
    {
      ghost var db := database.db;
      purged := PurgeWorkerLeases(batch);
      ghost var between := database.db;
      var ids := RecoverStuckJobs(batch, delays);
      examined := |ids|;
      if purged < batch && examined < batch {
        PurgedAll(db, between, database.queue, database.grace);
        forall id <- db.jobs | DeadOwner(db, database.queue, database.grace, id)
          ensures RecoveredFrom(db.jobs[id], db.now, delays(id), RowIn(database.db, id))
        {
          DeadOwnerIsRecovered(db, database.queue, database.grace, id, delays(id), RowIn(database.db, id));
        }
      }
    }
  }

  // ---- What a pass is for, without its scan ----

  /** The mark, column by column. */
  predicate MarkedNow(was: Row, row: Row, now: Time) {
    && SameJob(row, was) && row.status == Aborting && row.error == Some("swept") && row.result == Some(SWEPT_RESULT)
    && row.touchedAt == Some(now) && row.startedAt == was.startedAt && row.attempts == was.attempts
    && row.maxAttempts == was.maxAttempts && row.workerId == was.workerId && row.awaited == was.awaited
  }

  /** Available again without an owner while attempts remain; otherwise aborted, or deleted when failures are not kept. */
  predicate RecoveredFrom(row: Row, now: Time, delay: nat, after: Option<Row>) {
    if row.attempts < row.maxAttempts then after.Some? && HandedBack(row, after.value, Some("swept"), false, delay, now)
    else Ended(row, after, Some("swept"), now)
  }

  /** The sweeper's own retry: what it may not abort instead. */
  predicate Pending(row: Row) {
    row.error == Some("swept") && row.result == Some(SWEPT_RESULT) && row.attempts < row.maxAttempts
  }

  /** What a pass owes a row, from the guards of the three statements alone. A running row that may be marked is marked, and
      recovered at once if its owner's lease row is gone. An aborting row that may be retried is queued again, one that
      may be aborted and has no retry pending is ended. Any other row is left alone. */
  predicate Swept(db: Db, queue: Queue, grace: nat, id: JobId, delay: nat, after: Option<Row>) requires id in db.jobs {
    var row := db.jobs[id];
    var token := Token(id, row.attempts, row.workerId);
    if Accepts(grace, db, SweepMark(queue, token)) then
      if db.LeaseExpiry(row.workerId, queue).None? then RecoveredFrom(row, db.now, delay, after)
      else after.Some? && MarkedNow(row, after.value, db.now)
    else if Accepts(grace, db, SweepRetry(queue, token, delay)) then
      after.Some? && HandedBack(row, after.value, None, false, delay, db.now)
    else if row.status == Aborting && !Pending(row) && Accepts(grace, db, SweepAbort(queue, token)) then
      Ended(row, after, row.error, db.now)
    else after == Some(row)
  }

  lemma RetriedRow(grace: nat, row: Row, queue: Queue, token: Token, delay: nat, now: Time)
    ensures var after := Rewritten(SweepRetry(queue, token, delay), row, now);
            after.Some? && HandedBack(row, after.value, None, false, delay, now)
  {
  }

  lemma EndedRow(grace: nat, row: Row, queue: Queue, token: Token, now: Time)
    ensures Ended(row, Rewritten(SweepAbort(queue, token), row, now), row.error, now)
  {
  }

  /** Every row the scan selects, and */
  lemma ScannedIsSwept(db: Db, queue: Queue, grace: nat, id: JobId, delay: nat)
    requires Inv(db) && id in db.jobs && Scanned(db, queue, grace, id)
    ensures Swept(db, queue, grace, id, delay, PassRow(db, queue, grace, id, delay))
  {
    var row := db.jobs[id];
    var token := TokenAt(db, id);
    assert RowOk(row);
    if row.status.Running? {
      RetriedRow(grace, MarkedRow(row, db.now), queue, token, delay, db.now);
      EndedRow(grace, MarkedRow(row, db.now), queue, token, db.now);
    } else {
      RetriedRow(grace, row, queue, token, delay, db.now);
      EndedRow(grace, row, queue, token, db.now);
    }
  }

  /** every row it does not. */
  lemma UnscannedIsSwept(db: Db, queue: Queue, grace: nat, id: JobId, delay: nat)
    requires Inv(db) && id in db.jobs && !Scanned(db, queue, grace, id)
    ensures Swept(db, queue, grace, id, delay, Some(db.jobs[id]))
  {
    assert RowOk(db.jobs[id]);
  }

  /** The tables without the leases of the queue that expired at least twice the grace ago. */
  function AfterPurge(db: Db, queue: Queue, grace: nat): Db {
    db.(workers := map w | w in db.workers && !(db.workers[w].queue == queue && db.now - db.workers[w].expiresAt >= 2 * grace)
                     :: db.workers[w])
  }

  lemma PurgedAll(db: Db, between: Db, queue: Queue, grace: nat)
    requires between == db.(workers := between.workers)
    requires forall w <- between.workers :: w in db.workers && between.workers[w] == db.workers[w] && !LeasePurgeable(between, queue, grace, w)
    requires forall w <- db.workers :: w in between.workers || LeasePurgeable(db, queue, grace, w)
    ensures between == AfterPurge(db, queue, grace)
  {
    assert between.workers == AfterPurge(db, queue, grace).workers;
  }

  /** The row of one id after one statement, given the step that names it, if one does. */
  ghost function After(grace: nat, db: Db, id: JobId, step: Option<Step>): Option<Row> {
    if step.None? || id !in db.jobs || !Accepts(grace, db, step.value) then RowIn(db, id)
    else Rewritten(step.value, db.jobs[id], db.now)
  }

  lemma BatchRow(grace: nat, before: Db, steps: seq<Step>, after: Db, id: JobId, step: Option<Step>)
    requires BatchEffect(grace, before, steps, after)
    requires Names(steps, id, step)
    ensures RowIn(after, id) == After(grace, before, id, step)
    ensures after.workers == before.workers && after.now == before.now
  {
    if step.Some? {
      var i :| 0 <= i < |steps| && steps[i] == step.value;
      assert RowEffectOf(grace, before, steps[i], after);
    }
  }

  lemma PassRowIsBothPhases(grace: nat, db0: Db, db1: Db, db2: Db, db3: Db, queue: Queue, id: JobId, delay: nat, examined: bool)
    requires Inv(db0) && id in db0.jobs && (examined ==> Scanned(db0, queue, grace, id))
    requires db1.workers == db0.workers && db2.workers == db0.workers && db1.now == db0.now && db2.now == db0.now
    requires var take := examined && Abandoned(db0, queue, id);
             && RowIn(db1, id) == After(grace, db0, id,
                  if examined && db0.jobs[id].status.Running? then Some(SweepMark(queue, TokenAt(db0, id))) else None)
             && RowIn(db2, id) == After(grace, db1, id,
                  if take && Retries(db0, id) then Some(SweepRetry(queue, TokenAt(db0, id), delay)) else None)
             && RowIn(db3, id) == After(grace, db2, id,
                  if take && !Retries(db0, id) then Some(SweepAbort(queue, TokenAt(db0, id))) else None)
    ensures RowIn(db3, id) == if examined then PassRow(db0, queue, grace, id, delay) else Some(db0.jobs[id])
  {
    assert RowOk(db0.jobs[id]);
  }

  lemma PassOfOneRow(grace: nat, db0: Db, db1: Db, db2: Db, db3: Db, queue: Queue, examined: seq<JobId>,
                     delays: JobId -> nat, id: JobId)
    requires Inv(db0) && id in db0.jobs && (id in examined ==> Scanned(db0, queue, grace, id))
    requires BatchEffect(grace, db0, PhaseOne(db0, queue, examined), db1)
    requires BatchEffect(grace, db1, PhaseTwoRetries(db0, queue, examined, delays), db2)
    requires BatchEffect(grace, db2, PhaseTwoAborts(db0, queue, examined), db3)
    ensures RowIn(db3, id) == if id in examined then PassRow(db0, queue, grace, id, delays(id)) else Some(db0.jobs[id])
  {
    var take := id in examined && Abandoned(db0, queue, id);
    MarkStep(db0, queue, examined, id);
    RetryStep(db0, queue, examined, delays, id);
    AbortStep(db0, queue, examined, id);
    BatchRow(grace, db0, PhaseOne(db0, queue, examined), db1, id,
             if id in examined && db0.jobs[id].status.Running? then Some(SweepMark(queue, TokenAt(db0, id))) else None);
    BatchRow(grace, db1, PhaseTwoRetries(db0, queue, examined, delays), db2, id,
             if take && Retries(db0, id) then Some(SweepRetry(queue, TokenAt(db0, id), delays(id))) else None);
    BatchRow(grace, db2, PhaseTwoAborts(db0, queue, examined), db3, id,
             if take && !Retries(db0, id) then Some(SweepAbort(queue, TokenAt(db0, id))) else None);
    PassRowIsBothPhases(grace, db0, db1, db2, db3, queue, id, delays(id), id in examined);
  }

  /** A stuck running row of a worker whose lease expired at least twice the grace ago. */
  predicate DeadOwner(db: Db, queue: Queue, grace: nat, id: JobId) {
    && db.Has(queue, id) && db.jobs[id].status.Running?
    && JobIsStuck(db.jobs[id], grace, db.LeaseExpiry(db.jobs[id].workerId, queue), db.now)
    && (db.LeasePresent(db.jobs[id].workerId, queue) ==>
          db.LeaseExpiry(db.jobs[id].workerId, queue).value + 2 * grace <= db.now)
  }

  lemma DeadOwnerIsRecovered(db: Db, queue: Queue, grace: nat, id: JobId, delay: nat, after: Option<Row>)
    requires Inv(db) && DeadOwner(db, queue, grace, id)
    requires Swept(AfterPurge(db, queue, grace), queue, grace, id, delay, after)
    ensures RecoveredFrom(db.jobs[id], db.now, delay, after)
  {
    assert RowOk(db.jobs[id]);
  }

  /** A pending retry waits for the owner's lease to lapse even where the abort's guard would hold: a keyless row marked a
      grace ago under a live lease is left alone. */
  lemma PendingRetryIsNotAborted(queue: Queue, row: Row, grace: nat, now: Time)
    requires row.queue == queue && row.status.Aborting? && Pending(row) && row.dedupeKey.None? && row.workerId == Some(7)
    requires row.touchedAt.Some? && now - row.touchedAt.value >= grace
    ensures var db := Db(map[1 := row], map[7 := Lease(queue, now + 1, true)], now, {1});
            && Accepts(grace, db, SweepAbort(queue, TokenAt(db, 1)))
            && forall delay, after :: Swept(db, queue, grace, 1, delay, after) ==> after == Some(row)
  {
  }
}
