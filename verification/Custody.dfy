/**
 Who answers for a claim. A dequeue claims rows in a transaction whose COMMIT may land, fail, or
 lose its acknowledgement; from just before the COMMIT a guard holds the claims, then the
 consumer's `Attempt`s do, and whatever is dropped goes to a background resolver. The claim
 statement and the resolver share a per-worker advisory lock.
 */
module Custody {
  import opened Rows
  import opened Lifecycle
  import opened Invariants

  /** An unresolved claim transaction: the rows it locked, with the attempt number each will get. */
  datatype Tx = Tx(worker: WorkerId, queue: Queue, claims: map<JobId, nat>, at: Time, armed: bool)

  datatype Custodian =
    | Guarded                          // in the armed guard of a dequeue still running
    | Attempting                       // an unsettled `Attempt` of the consumer
    | ResolvingCommit(refused: bool)   // the unacknowledged-claim resolver; whether this pass's requeue was refused
    | ResolvingDrop(refused: bool)     // the dropped-attempt resolver
    | GaveUp                           // no runtime, or the pool closed
    | Released                         // settled, or its resolver finished a pass

  /** One client-side record of a claim. */
  datatype Holder = Holder(token: Token, queue: Queue, tx: nat, kind: Custodian)

  datatype World = World(db: Db, txs: map<nat, Tx>, holders: map<nat, Holder>, landed: set<nat>, seen: set<nat>) {
    /** The per-worker advisory lock is free: no claim transaction of that worker is unresolved. */
    predicate LockFree(worker: Option<WorkerId>) {
      forall x <- txs :: Some(txs[x].worker) != worker
    }

    predicate RowLocked(id: JobId) { exists x <- txs :: id in txs[x].claims }
  }

  datatype Move =
    | Database(step: Step)
    | OpenClaim(tx: nat, worker: WorkerId, queue: Queue, ids: set<JobId>, low: int, high: int)
    | Arm(tx: nat, keys: map<nat, JobId>)
    | CommitLands(tx: nat)
    | CommitFails(tx: nat)
    | Acknowledge(tx: nat)
    | DropGuard(tx: nat, runtime: bool)
    | Settle(holder: nat, step: Step, acknowledged: bool)
    | DropAttempt(holder: nat, runtime: bool)
    | PassRequeue(holder: nat, delay: nat, acknowledged: bool)
    | PassAbort(holder: nat, acknowledged: bool)
    | PassFails(holder: nat)
    | PoolClosed(holder: nat)

  function TokenOf(tx: Tx, id: JobId): Token requires id in tx.claims { Token(id, tx.claims[id], Some(tx.worker)) }

  /** The attempt number each selected row is about to get. */
  function ClaimsOf(db: Db, ids: set<JobId>): map<JobId, nat> {
    map id | id in ids && id in db.jobs :: db.jobs[id].attempts + 1
  }

  /** The rows a landed COMMIT makes `running`. */
  function Land(db: Db, tx: Tx): Db {
    db.(jobs := map id <- db.jobs :: if id in tx.claims then ClaimedRow(db.jobs[id], tx.worker, tx.at) else db.jobs[id])
  }

  function Retag(holders: map<nat, Holder>, tx: nat, kind: Custodian): map<nat, Holder> {
    map h <- holders :: if holders[h].tx == tx && holders[h].kind.Guarded? then holders[h].(kind := kind) else holders[h]
  }

  function Set(holders: map<nat, Holder>, h: nat, kind: Custodian): map<nat, Holder> requires h in holders {
    holders[h := holders[h].(kind := kind)]
  }

  /** The first statement of a resolver pass: the guarded requeue, refunding only a claim that never ran. */
  function RequeueOf(holder: Holder, delay: nat): Step {
    var commit := holder.kind.ResolvingCommit?;
    Requeue(holder.queue, holder.token,
            Some(if commit then "dequeue commit was not acknowledged" else "attempt dropped without settlement"),
            if commit then 0 else delay, Guards(true, true, commit, false))
  }

  /** Its fallback. */
  function AbortOf(holder: Holder): Step {
    AbortUnsettled(holder.queue, holder.token,
                   if holder.kind.ResolvingCommit? then "dequeue commit was not acknowledged"
                   else "attempt dropped without settlement")
  }

  function Refused(kind: Custodian, refused: bool): Custodian requires kind.ResolvingCommit? || kind.ResolvingDrop? {
    if kind.ResolvingCommit? then ResolvingCommit(refused) else ResolvingDrop(refused)
  }

  /** A resolver may run a statement: the commit resolver only under the worker's advisory lock. */
  predicate MayResolve(w: World, h: nat, refused: bool) {
    && h in w.holders
    && match w.holders[h].kind
       case ResolvingCommit(r) => r == refused && w.LockFree(w.holders[h].token.worker)
       case ResolvingDrop(r) => r == refused
       case _ => false
  }

  /** The statements an `Attempt` sends: a finish, or a retry without refund. */
  predicate AttemptStatement(step: Step, holder: Holder) {
    && (step.Finish? || (step.Requeue? && step.guards == Guards(true, true, false, false)))
    && step.queue == holder.queue && step.token == holder.token
  }

  /** A statement that would write a row some claim transaction has locked waits instead. */
  predicate NotBlocked(grace: nat, w: World, step: Step) {
    Target(step).Some? && w.RowLocked(Target(step).value) ==> !Accepts(grace, w.db, step)
  }

  ghost predicate Next(grace: nat, w: World, move: Move, w': World) {
    match move
    case Database(step) =>
      && Legal(w.db, step) && !step.Claim? && NotBlocked(grace, w, step)
      && w' == w.(db := Apply(grace, w.db, step))
    case OpenClaim(x, worker, queue, ids, low, high) =>
      && x !in w.seen && w.LockFree(Some(worker))
      && (forall id <- ids :: !w.RowLocked(id) && Accepts(grace, w.db, Claim(queue, id, worker, low, high)))
      && w' == w.(txs := w.txs[x := Tx(worker, queue, ClaimsOf(w.db, ids), w.db.now, false)], seen := w.seen + {x})
    case Arm(x, keys) =>
      && x in w.txs && !w.txs[x].armed
      && keys.Keys !! w.holders.Keys && keys.Values == w.txs[x].claims.Keys
      && (forall h, k | h in keys && k in keys && keys[h] == keys[k] :: h == k)
      && var tx := w.txs[x];
         && w'.db == w.db && w'.landed == w.landed && w'.seen == w.seen
         && w'.txs == w.txs[x := tx.(armed := true)]
         && w'.holders.Keys == w.holders.Keys + keys.Keys
         && (forall h <- w.holders :: w'.holders[h] == w.holders[h])
         && (forall h <- keys :: keys[h] in tx.claims && w'.holders[h] == Holder(TokenOf(tx, keys[h]), tx.queue, x, Guarded))
    case CommitLands(x) =>
      && x in w.txs && w.txs[x].armed
      && w' == w.(db := Land(w.db, w.txs[x]), txs := w.txs - {x}, landed := w.landed + {x})
    case CommitFails(x) =>
      x in w.txs && w' == w.(txs := w.txs - {x})
    case Acknowledge(x) =>
      x in w.landed && w' == w.(holders := Retag(w.holders, x, Attempting))
    case DropGuard(x, runtime) =>
      w' == w.(holders := Retag(w.holders, x, if runtime then ResolvingCommit(false) else GaveUp))
    case Settle(h, step, acknowledged) =>
      && h in w.holders && w.holders[h].kind.Attempting? && AttemptStatement(step, w.holders[h])
      && Legal(w.db, step) && NotBlocked(grace, w, step)
      && w' == w.(db := Apply(grace, w.db, step),
                  holders := if acknowledged && Accepts(grace, w.db, step) then Set(w.holders, h, Released) else w.holders)
    case DropAttempt(h, runtime) =>
      && h in w.holders && w.holders[h].kind.Attempting?
      && w' == w.(holders := Set(w.holders, h, if runtime then ResolvingDrop(false) else GaveUp))
    case PassRequeue(h, delay, acknowledged) =>
      && MayResolve(w, h, false)
      && var step := RequeueOf(w.holders[h], delay);
         && NotBlocked(grace, w, step)
         && w' == w.(db := Apply(grace, w.db, step),
                     holders := if !Accepts(grace, w.db, step) then Set(w.holders, h, Refused(w.holders[h].kind, true))
                                else if acknowledged then Set(w.holders, h, Released) else w.holders)
    case PassAbort(h, acknowledged) =>
      && MayResolve(w, h, true)
      && var step := AbortOf(w.holders[h]);
         && NotBlocked(grace, w, step)
         && w' == w.(db := Apply(grace, w.db, step),
                     holders := Set(w.holders, h, if acknowledged then Released else Refused(w.holders[h].kind, false)))
    case PassFails(h) =>
      && MayResolve(w, h, true) && w' == w.(holders := Set(w.holders, h, Refused(w.holders[h].kind, false)))
    case PoolClosed(h) =>
      && h in w.holders && (w.holders[h].kind.ResolvingCommit? || w.holders[h].kind.ResolvingDrop?)
      && w' == w.(holders := Set(w.holders, h, GaveUp))
  }

  // ---- The custody invariant ----

  predicate ActiveWith(db: Db, token: Token) {
    && token.id in db.jobs && db.jobs[token.id].status.Active()
    && db.jobs[token.id].attempts == token.attempts && db.jobs[token.id].workerId == token.worker
  }

  /** Somebody who got the claim from one of the transactions `from`, and has not let go, answers for it. */
  ghost predicate Answered(w: World, token: Token, from: set<nat>) {
    exists h <- w.holders :: w.holders[h].token == token && !w.holders[h].kind.Released? && w.holders[h].tx in from
  }

  /** An unresolved transaction holds its worker's lock alone and its rows exactly as it claimed them; once
      it is armed its claims are all in guards or with resolvers that cannot have run. */
  ghost predicate TxOk(w: World, x: nat) requires x in w.txs {
    var tx := w.txs[x];
    && x in w.seen && x !in w.landed
    && (forall y <- w.txs :: y != x ==> w.txs[y].worker != tx.worker && w.txs[y].claims.Keys !! tx.claims.Keys)
    && (forall id <- tx.claims :: id in w.db.jobs && w.db.jobs[id].status.Queued? && w.db.jobs[id].queue == tx.queue
                                  && w.db.jobs[id].attempts + 1 == tx.claims[id])
    && (tx.armed ==> forall id <- tx.claims :: Answered(w, TokenOf(tx, id), {x}))
  }

  /** A record belongs to a known transaction; until that resolves, no resolver has acted on it; once it has
      landed, the row has reached the record's attempt number. */
  predicate HolderOk(w: World, h: nat) requires h in w.holders {
    var holder := w.holders[h];
    && holder.tx in w.seen && holder.token.worker.Some? && holder.token.id in w.db.issued
    && (holder.token.id in w.db.jobs ==> w.db.jobs[holder.token.id].queue == holder.queue)
    && (holder.tx in w.txs ==>
          && w.txs[holder.tx].armed && holder.token.id in w.txs[holder.tx].claims
          && holder.token == TokenOf(w.txs[holder.tx], holder.token.id)
          && (holder.kind.Guarded? || holder.kind.GaveUp? || holder.kind == ResolvingCommit(false)))
    && (holder.kind.Attempting? || holder.kind.ResolvingDrop? ==> holder.tx in w.landed)
    && (holder.tx in w.landed && holder.token.id in w.db.jobs ==>
          holder.token.attempts <= w.db.jobs[holder.token.id].attempts)
  }

  ghost predicate CustodyInv(w: World) {
    && Inv(w.db)
    && w.txs.Keys <= w.seen && w.landed <= w.seen
    && (forall x <- w.txs :: TxOk(w, x))
    && (forall h <- w.holders :: HolderOk(w, h))
    && NoOrphans(w)
    && LandedOnce(w.holders, w.landed)
  }

  /** Every running or aborting row has somebody who answers for its claim. */
  ghost predicate NoOrphans(w: World) {
    forall token :: ActiveWith(w.db, token) ==> Answered(w, token, w.landed)
  }

  /** One record per claim of a transaction, and one per claim that ever landed. */
  ghost predicate LandedOnce(holders: map<nat, Holder>, landed: set<nat>) {
    forall h, k | h in holders && k in holders && holders[h].token == holders[k].token ::
      holders[h].tx == holders[k].tx || (holders[h].tx in landed && holders[k].tx in landed) ==> h == k
  }

  /** Some unresolved transaction would make this claim real. */
  predicate Pending(w: World, token: Token) {
    exists x <- w.txs :: token.id in w.txs[x].claims && TokenOf(w.txs[x], token.id) == token
  }

  // ---- Preservation ----

  /** A step that is not a claim makes no claim active that was not active before. */
  lemma OnlyClaimsActivate(grace: nat, db: Db, step: Step, token: Token)
    requires Inv(db) && Legal(db, step) && !step.Claim? && ActiveWith(Apply(grace, db, step), token)
    ensures ActiveWith(db, token)
  {
    RowEffect(grace, db, step, token.id);
    if token.id in db.jobs {
      OnlyTargetChanges(grace, db, step, token.id);
      assert RowOk(db.jobs[token.id]);
    }
  }

  /** A lifecycle step that is not a claim and writes no locked row keeps custody. */
  lemma StepKeepsCustody(grace: nat, w: World, step: Step)
    requires CustodyInv(w) && Legal(w.db, step) && !step.Claim? && NotBlocked(grace, w, step)
    ensures CustodyInv(w.(db := Apply(grace, w.db, step)))
  {
    var w' := w.(db := Apply(grace, w.db, step));
    StepKeepsInv(grace, w.db, step);
    forall x <- w.txs ensures TxOk(w', x) {
      assert TxOk(w, x);
      forall id <- w.txs[x].claims ensures id in w'.db.jobs && w'.db.jobs[id] == w.db.jobs[id] {
        assert w.RowLocked(id);
        OnlyTargetChanges(grace, w.db, step, id);
      }
      forall id <- w.txs[x].claims ensures w.txs[x].armed ==> Answered(w', TokenOf(w.txs[x], id), {x}) {
        if w.txs[x].armed { assert Answered(w, TokenOf(w.txs[x], id), {x}); }
      }
    }
    forall h <- w.holders ensures HolderOk(w', h) {
      assert HolderOk(w, h);
      RowEffect(grace, w.db, step, w.holders[h].token.id);
    }
    forall token | ActiveWith(w'.db, token) ensures Answered(w', token, w'.landed) {
      OnlyClaimsActivate(grace, w.db, step, token);
      assert Answered(w, token, w.landed);
    }
  }

  /** Changing the kind of records keeps custody while nobody lets go of a claim that is or may become active. */
  lemma RetagKeepsCustody(w: World, w': World)
    requires CustodyInv(w) && w' == w.(holders := w'.holders) && w'.holders.Keys == w.holders.Keys
    requires forall h <- w.holders :: w'.holders[h] == w.holders[h].(kind := w'.holders[h].kind) && HolderOk(w', h)
    requires forall h <- w.holders :: w'.holders[h].kind.Released? && !w.holders[h].kind.Released? ==>
               !ActiveWith(w.db, w.holders[h].token) && !Pending(w, w.holders[h].token)
    ensures CustodyInv(w')
  {
    forall token, from | Answered(w, token, from) && (ActiveWith(w.db, token) || Pending(w, token)) ensures Answered(w', token, from) {
      var h :| h in w.holders && w.holders[h].token == token && !w.holders[h].kind.Released? && w.holders[h].tx in from;
      assert w'.holders[h].token == token;
    }
    forall x <- w.txs ensures TxOk(w', x) {
      assert TxOk(w, x);
      forall id <- w.txs[x].claims ensures w.txs[x].armed ==> Answered(w', TokenOf(w.txs[x], id), {x}) {
        if w.txs[x].armed { assert Answered(w, TokenOf(w.txs[x], id), {x}) && Pending(w, TokenOf(w.txs[x], id)); }
      }
    }
  }

  lemma LandKeepsInv(w: World, x: nat)
    requires CustodyInv(w) && x in w.txs
    ensures Inv(Land(w.db, w.txs[x]))
  {
    var db := Land(w.db, w.txs[x]);
    assert TxOk(w, x);
    forall id <- db.jobs ensures RowOk(db.jobs[id]) { assert RowOk(w.db.jobs[id]); }
    forall i, j, queue, key | db.HoldsKey(i, queue, key) && db.HoldsKey(j, queue, key) ensures i == j {
      assert w.db.HoldsKey(i, queue, key) && w.db.HoldsKey(j, queue, key);
    }
  }

  lemma LandKeepsLandedOnce(w: World, x: nat)
    requires CustodyInv(w) && x in w.txs && w.txs[x].armed
    ensures LandedOnce(w.holders, w.landed + {x})
  {
    assert TxOk(w, x);
    forall h, k | h in w.holders && k in w.holders && w.holders[h].token == w.holders[k].token
                  && w.holders[h].tx in w.landed + {x} && w.holders[k].tx in w.landed + {x} ensures h == k {
      assert HolderOk(w, h) && HolderOk(w, k);
    }
  }

  lemma LandKeepsOthers(w: World, x: nat, w': World)
    requires CustodyInv(w) && x in w.txs && w.txs[x].armed
    requires w' == w.(db := Land(w.db, w.txs[x]), txs := w.txs - {x}, landed := w.landed + {x})
    ensures forall y <- w'.txs :: TxOk(w', y)
    ensures forall h <- w'.holders :: HolderOk(w', h)
  {
    assert TxOk(w, x);
    forall y <- w'.txs ensures TxOk(w', y) {
      assert TxOk(w, y);
      forall id <- w.txs[y].claims ensures w.txs[y].armed ==> Answered(w', TokenOf(w.txs[y], id), {y}) {
        if w.txs[y].armed { assert Answered(w, TokenOf(w.txs[y], id), {y}); }
      }
    }
    forall h <- w.holders ensures HolderOk(w', h) { assert HolderOk(w, h); }
  }

  lemma LandKeepsCustody(w: World, x: nat)
    requires CustodyInv(w) && x in w.txs && w.txs[x].armed
    ensures CustodyInv(w.(db := Land(w.db, w.txs[x]), txs := w.txs - {x}, landed := w.landed + {x}))
  {
    var tx := w.txs[x];
    var w' := w.(db := Land(w.db, tx), txs := w.txs - {x}, landed := w.landed + {x});
    LandKeepsInv(w, x);
    LandKeepsOthers(w, x, w');
    LandKeepsLandedOnce(w, x);
    assert TxOk(w, x);
    forall token | ActiveWith(w'.db, token) ensures Answered(w', token, w'.landed) {
      if token.id in tx.claims {
        assert token == TokenOf(tx, token.id);
        assert Answered(w, token, {x});
      } else {
        assert ActiveWith(w.db, token);
        assert Answered(w, token, w.landed);
      }
    }
  }

  lemma OpenKeepsCustody(grace: nat, w: World, move: Move, w': World)
    requires CustodyInv(w) && move.OpenClaim? && Next(grace, w, move, w')
    ensures CustodyInv(w')
  {
    var tx := w'.txs[move.tx];
    forall id <- tx.claims ensures !w.RowLocked(id) && id in w.db.jobs && w.db.jobs[id].status.Queued?
                                   && w.db.jobs[id].queue == move.queue && w.db.jobs[id].attempts + 1 == tx.claims[id] {
      assert Accepts(grace, w.db, Claim(move.queue, id, move.worker, move.low, move.high));
    }
    forall y <- w.txs ensures w.txs[y].worker != tx.worker && w.txs[y].claims.Keys !! tx.claims.Keys && TxOk(w, y) {
      forall id <- tx.claims ensures id !in w.txs[y].claims { assert !w.RowLocked(id); }
    }
    forall y <- w'.txs ensures TxOk(w', y) {
      if y != move.tx {
        forall id <- w.txs[y].claims ensures w.txs[y].armed ==> Answered(w', TokenOf(w.txs[y], id), {y}) {
          if w.txs[y].armed { assert Answered(w, TokenOf(w.txs[y], id), {y}); }
        }
      }
    }
    forall h <- w.holders ensures HolderOk(w', h) { assert HolderOk(w, h); }
    forall token | ActiveWith(w.db, token) ensures Answered(w', token, w'.landed) { assert Answered(w, token, w.landed); }
  }

  /** Records are only added: whoever answered still answers. */
  lemma StillAnswered(w: World, w': World, token: Token, from: set<nat>)
    requires Answered(w, token, from) && w.holders.Keys <= w'.holders.Keys
    requires forall h <- w.holders :: w'.holders[h] == w.holders[h]
    ensures Answered(w', token, from)
  {
    var h :| h in w.holders && w.holders[h].token == token && !w.holders[h].kind.Released? && w.holders[h].tx in from;
    assert h in w'.holders;
  }

  lemma ArmKeepsTxs(grace: nat, w: World, move: Move, w': World, y: nat)
    requires CustodyInv(w) && move.Arm? && Next(grace, w, move, w') && y in w'.txs
    ensures TxOk(w', y)
  {
    assert TxOk(w, y);
    forall id <- w'.txs[y].claims ensures w'.txs[y].armed ==> Answered(w', TokenOf(w'.txs[y], id), {y}) {
      if y == move.tx {
        var h :| h in move.keys && move.keys[h] == id;
        assert w'.holders[h].token == TokenOf(w'.txs[y], id);
      } else if w.txs[y].armed {
        StillAnswered(w, w', TokenOf(w.txs[y], id), {y});
      }
    }
  }

  lemma ArmKeepsLandedOnce(grace: nat, w: World, move: Move, w': World)
    requires CustodyInv(w) && move.Arm? && Next(grace, w, move, w')
    ensures LandedOnce(w'.holders, w'.landed)
  {
    assert TxOk(w, move.tx);
    forall h, k | h in w'.holders && k in w'.holders && w'.holders[h].token == w'.holders[k].token
                  && (w'.holders[h].tx == w'.holders[k].tx || (w'.holders[h].tx in w.landed && w'.holders[k].tx in w.landed))
      ensures h == k
    {
      if h in w.holders { assert HolderOk(w, h); }
      if k in w.holders { assert HolderOk(w, k); }
    }
  }

  lemma ArmKeepsCustody(grace: nat, w: World, move: Move, w': World)
    requires CustodyInv(w) && move.Arm? && Next(grace, w, move, w')
    ensures CustodyInv(w')
  {
    forall y <- w'.txs ensures TxOk(w', y) { ArmKeepsTxs(grace, w, move, w', y); }
    forall h <- w'.holders ensures HolderOk(w', h) { ArmKeepsHolders(grace, w, move, w', h); }
    forall token | ActiveWith(w.db, token) ensures Answered(w', token, w'.landed) { StillAnswered(w, w', token, w.landed); }
    ArmKeepsLandedOnce(grace, w, move, w');
  }

  lemma ArmKeepsHolders(grace: nat, w: World, move: Move, w': World, h: nat)
    requires CustodyInv(w) && move.Arm? && Next(grace, w, move, w') && h in w'.holders
    ensures HolderOk(w', h)
  {
    assert TxOk(w, move.tx);
    if h in w.holders { assert HolderOk(w, h); }
  }

  lemma FailKeepsCustody(w: World, x: nat)
    requires CustodyInv(w) && x in w.txs
    ensures CustodyInv(w.(txs := w.txs - {x}))
  {
    var w' := w.(txs := w.txs - {x});
    forall y <- w'.txs ensures TxOk(w', y) {
      assert TxOk(w, y);
      forall id <- w.txs[y].claims ensures w.txs[y].armed ==> Answered(w', TokenOf(w.txs[y], id), {y}) {
        if w.txs[y].armed { assert Answered(w, TokenOf(w.txs[y], id), {y}); }
      }
    }
    forall h <- w.holders ensures HolderOk(w', h) { assert HolderOk(w, h); }
    forall token | ActiveWith(w.db, token) ensures Answered(w', token, w'.landed) { assert Answered(w, token, w.landed); }
  }

  /** A landed claim is behind its row, so no unresolved transaction is about to make it real. */
  lemma LandedIsNotPending(w: World, h: nat)
    requires CustodyInv(w) && h in w.holders && w.holders[h].tx in w.landed
    ensures !Pending(w, w.holders[h].token)
  {
    assert HolderOk(w, h);
    forall x <- w.txs ensures w.holders[h].token.id in w.txs[x].claims ==> TokenOf(w.txs[x], w.holders[h].token.id) != w.holders[h].token {
      assert TxOk(w, x);
    }
  }

  /** Under the advisory lock no claim of that worker is undecided. */
  lemma LockedIsNotPending(w: World, token: Token)
    requires w.LockFree(token.worker)
    ensures !Pending(w, token)
  {
  }

  /** An accepted write of a claim leaves no row active under it. */
  lemma WriteEnds(grace: nat, db: Db, step: Step)
    requires Inv(db) && Legal(db, step) && (step.Finish? || step.Requeue? || step.AbortUnsettled?)
    requires Accepts(grace, db, step) || step.AbortUnsettled?
    requires step.token.id in db.jobs ==> db.jobs[step.token.id].queue == step.queue
    ensures !ActiveWith(Apply(grace, db, step), step.token)
  {
  }

  /** Letting go of a claim nobody's row is active under and no COMMIT can make real. */
  lemma ReleaseKeepsCustody(w: World, h: nat)
    requires CustodyInv(w) && h in w.holders && w.holders[h].tx !in w.txs
    requires !ActiveWith(w.db, w.holders[h].token) && !Pending(w, w.holders[h].token)
    ensures CustodyInv(w.(holders := Set(w.holders, h, Released)))
  {
    var w' := w.(holders := Set(w.holders, h, Released));
    forall k <- w.holders ensures HolderOk(w', k) { assert HolderOk(w, k); }
    RetagKeepsCustody(w, w');
  }

  /** A record whose kind changes without letting go. */
  lemma RekindKeepsCustody(w: World, h: nat, kind: Custodian)
    requires CustodyInv(w) && h in w.holders && !kind.Released?
    requires HolderOk(w.(holders := Set(w.holders, h, kind)), h)
    ensures CustodyInv(w.(holders := Set(w.holders, h, kind)))
  {
    var w' := w.(holders := Set(w.holders, h, kind));
    forall k <- w.holders ensures HolderOk(w', k) { assert HolderOk(w, k); }
    RetagKeepsCustody(w, w');
  }

  lemma GuardsKeepCustody(w: World, x: nat, kind: Custodian)
    requires CustodyInv(w) && (kind == ResolvingCommit(false) || kind.GaveUp? || (kind.Attempting? && x in w.landed))
    ensures CustodyInv(w.(holders := Retag(w.holders, x, kind)))
  {
    var w' := w.(holders := Retag(w.holders, x, kind));
    forall h <- w.holders ensures HolderOk(w', h) {
      assert HolderOk(w, h);
      if w.holders[h].tx in w.txs { assert TxOk(w, w.holders[h].tx); }
    }
    RetagKeepsCustody(w, w');
  }

  lemma SettleKeepsCustody(grace: nat, w: World, move: Move, w': World)
    requires CustodyInv(w) && move.Settle? && Next(grace, w, move, w')
    ensures CustodyInv(w')
  {
    var w1 := w.(db := Apply(grace, w.db, move.step));
    StepKeepsCustody(grace, w, move.step);
    if move.acknowledged && Accepts(grace, w.db, move.step) {
      assert HolderOk(w, move.holder);
      WriteEnds(grace, w.db, move.step);
      LandedIsNotPending(w1, move.holder);
      ReleaseKeepsCustody(w1, move.holder);
    }
  }

  /** What a resolver needs to know about the claim it is working on. */
  lemma ResolverFacts(w: World, h: nat, refused: bool)
    requires CustodyInv(w) && MayResolve(w, h, refused)
    ensures w.holders[h].tx !in w.txs && !Pending(w, w.holders[h].token)
  {
    assert HolderOk(w, h);
    if w.holders[h].tx in w.txs { assert TxOk(w, w.holders[h].tx); }
    if w.holders[h].kind.ResolvingCommit? { LockedIsNotPending(w, w.holders[h].token); } else { LandedIsNotPending(w, h); }
  }

  lemma RequeuePassKeepsCustody(grace: nat, w: World, move: Move, w': World)
    requires CustodyInv(w) && move.PassRequeue? && Next(grace, w, move, w')
    ensures CustodyInv(w')
  {
    var h := move.holder;
    var step := RequeueOf(w.holders[h], move.delay);
    var w1 := w.(db := Apply(grace, w.db, step));
    ResolverFacts(w, h, false);
    StepKeepsCustody(grace, w, step);
    assert HolderOk(w1, h);
    if !Accepts(grace, w.db, step) {
      RekindKeepsCustody(w1, h, Refused(w.holders[h].kind, true));
    } else if move.acknowledged {
      assert HolderOk(w, h);
      WriteEnds(grace, w.db, step);
      ReleaseKeepsCustody(w1, h);
    }
  }

  lemma AbortPassKeepsCustody(grace: nat, w: World, move: Move, w': World)
    requires CustodyInv(w) && move.PassAbort? && Next(grace, w, move, w')
    ensures CustodyInv(w')
  {
    var h := move.holder;
    var step := AbortOf(w.holders[h]);
    var w1 := w.(db := Apply(grace, w.db, step));
    ResolverFacts(w, h, true);
    StepKeepsCustody(grace, w, step);
    assert HolderOk(w1, h);
    if move.acknowledged {
      assert HolderOk(w, h);
      WriteEnds(grace, w.db, step);
      ReleaseKeepsCustody(w1, h);
    } else {
      RekindKeepsCustody(w1, h, Refused(w.holders[h].kind, false));
    }
  }

  lemma MoveKeepsCustody(grace: nat, w: World, move: Move, w': World)
    requires CustodyInv(w) && Next(grace, w, move, w')
    ensures CustodyInv(w')
  {
    match move
    case Database(step) => StepKeepsCustody(grace, w, step);
    case OpenClaim(_, _, _, _, _, _) => OpenKeepsCustody(grace, w, move, w');
    case Arm(_, _) => ArmKeepsCustody(grace, w, move, w');
    case CommitLands(x) => LandKeepsCustody(w, x);
    case CommitFails(x) => FailKeepsCustody(w, x);
    case Acknowledge(x) => GuardsKeepCustody(w, x, Attempting);
    case DropGuard(x, runtime) => GuardsKeepCustody(w, x, if runtime then ResolvingCommit(false) else GaveUp);
    case Settle(_, _, _) => SettleKeepsCustody(grace, w, move, w');
    case DropAttempt(h, runtime) => assert HolderOk(w, h); RekindKeepsCustody(w, h, if runtime then ResolvingDrop(false) else GaveUp);
    case PassRequeue(_, _, _) => RequeuePassKeepsCustody(grace, w, move, w');
    case PassAbort(_, _) => AbortPassKeepsCustody(grace, w, move, w');
    case PassFails(h) => ResolverFacts(w, h, true); assert HolderOk(w, h); RekindKeepsCustody(w, h, Refused(w.holders[h].kind, false));
    case PoolClosed(h) => assert HolderOk(w, h); RekindKeepsCustody(w, h, GaveUp);
  }
}
