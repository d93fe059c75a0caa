/**
 What custody gives over whole interleavings: no orphaned claim, no resolver that overtakes the
 COMMIT it resolves, and passes that end a claim for good.
 */
module CustodyTheorems {
  import opened Rows
  import opened Lifecycle
  import opened Invariants
  import opened Custody

  /** Any good tables without active rows, no transaction and no client-side record. */
  ghost predicate Start(w: World) {
    && Inv(w.db) && (forall token :: !ActiveWith(w.db, token))
    && w.txs == map[] && w.holders == map[] && w.landed == {} && w.seen == {}
  }

  ghost predicate IsInterleaving(grace: nat, worlds: seq<World>, moves: seq<Move>) {
    && |worlds| == |moves| + 1 && Start(worlds[0])
    && forall i :: 0 <= i < |moves| ==> Next(grace, worlds[i], moves[i], worlds[i + 1])
  }

  lemma {:induction false} CustodyHolds(grace: nat, worlds: seq<World>, moves: seq<Move>, i: nat)
    requires IsInterleaving(grace, worlds, moves) && i < |worlds|
    ensures CustodyInv(worlds[i])
  {
    if i > 0 {
      CustodyHolds(grace, worlds, moves, i - 1);
      assert Next(grace, worlds[i - 1], moves[i - 1], worlds[i]);
      MoveKeepsCustody(grace, worlds[i - 1], moves[i - 1], worlds[i]);
    }
  }

  /** In every reachable state the claim of every running or aborting row is with an unsettled attempt, an armed
      guard, a resolver still pending, or a resolver that gave up, and it reached them from a COMMIT that landed. */
  lemma NoOrphanedClaim(grace: nat, worlds: seq<World>, moves: seq<Move>, i: nat, id: JobId) returns (h: nat)
    requires IsInterleaving(grace, worlds, moves) && i < |worlds|
    requires id in worlds[i].db.jobs && worlds[i].db.jobs[id].status.Active()
    ensures var w := worlds[i]; var row := w.db.jobs[id];
            && h in w.holders && w.holders[h].token == Token(id, row.attempts, row.workerId)
            && w.holders[h].tx in w.landed
            && (w.holders[h].kind.Attempting? || w.holders[h].kind.Guarded? || w.holders[h].kind.ResolvingCommit?
                || w.holders[h].kind.ResolvingDrop? || w.holders[h].kind.GaveUp?)
  {
    CustodyHolds(grace, worlds, moves, i);
    var w := worlds[i];
    var token := Token(id, w.db.jobs[id].attempts, w.db.jobs[id].workerId);
    assert ActiveWith(w.db, token);
    h :| h in w.holders && w.holders[h].token == token && !w.holders[h].kind.Released? && w.holders[h].tx in w.landed;
  }

  lemma {:induction false} ResolvedForever(grace: nat, worlds: seq<World>, moves: seq<Move>, i: nat, j: nat, x: nat)
    requires IsInterleaving(grace, worlds, moves) && i <= j < |worlds|
    requires x in worlds[i].seen && x !in worlds[i].txs
    ensures x in worlds[j].seen && x !in worlds[j].txs
    decreases j
  {
    if i < j {
      ResolvedForever(grace, worlds, moves, i, j - 1, x);
      assert Next(grace, worlds[j - 1], moves[j - 1], worlds[j]);
    }
  }

  predicate ResolverMove(move: Move) { move.PassRequeue? || move.PassAbort? }

  /** Whenever a resolver runs a statement for a claim, the transaction that made the claim has been decided,
      and at no later point does its COMMIT land: nothing the resolver settled becomes real afterwards. */
  lemma ResolverNeverOvertakesCommit(grace: nat, worlds: seq<World>, moves: seq<Move>, i: nat, j: nat)
    requires IsInterleaving(grace, worlds, moves) && i <= j < |moves| && ResolverMove(moves[i])
    ensures moves[i].holder in worlds[i].holders
    ensures moves[j] != CommitLands(worlds[i].holders[moves[i].holder].tx)
  {
    CustodyHolds(grace, worlds, moves, i);
    var h := moves[i].holder;
    assert Next(grace, worlds[i], moves[i], worlds[i + 1]);
    ResolverFacts(worlds[i], h, moves[i].PassAbort?);
    assert HolderOk(worlds[i], h);
    ResolvedForever(grace, worlds, moves, i, j, worlds[i].holders[h].tx);
    assert Next(grace, worlds[j], moves[j], worlds[j + 1]);
  }

  /** One move on one id: a row that survives evolves, an id that is gone stays gone. */
  lemma MoveEvolves(grace: nat, w: World, move: Move, w': World, id: JobId)
    requires CustodyInv(w) && Next(grace, w, move, w') && id in w.db.issued
    ensures id in w'.db.issued
    ensures id in w'.db.jobs ==> id in w.db.jobs && Evolves(w.db.jobs[id], w'.db.jobs[id])
  {
    match move
    case Database(step) => RowEffect(grace, w.db, step, id);
    case Settle(_, step, _) => RowEffect(grace, w.db, step, id);
    case PassRequeue(h, delay, _) => RowEffect(grace, w.db, RequeueOf(w.holders[h], delay), id);
    case PassAbort(h, _) => RowEffect(grace, w.db, AbortOf(w.holders[h]), id);
    case CommitLands(x) => assert TxOk(w, x);
    case _ =>
  }

  /** The row of `id` in `b` evolved from the one in `a`. */
  ghost predicate Carries(a: Db, b: Db, id: JobId) {
    match b case Db(jobs, _, _, issued) => id in issued && (id in jobs ==> id in a.jobs && Evolves(a.jobs[id], jobs[id]))
  }

  lemma StepCarries(grace: nat, worlds: seq<World>, moves: seq<Move>, j: nat, id: JobId)
    requires IsInterleaving(grace, worlds, moves) && j < |moves| && id in worlds[j].db.issued
    ensures Carries(worlds[j].db, worlds[j + 1].db, id)
  {
    CustodyHolds(grace, worlds, moves, j);
    assert Next(grace, worlds[j], moves[j], worlds[j + 1]);
    MoveEvolves(grace, worlds[j], moves[j], worlds[j + 1], id);
  }

  lemma CarriesThrough(a: Db, b: Db, c: Db, id: JobId)
    requires Carries(a, b, id) && Carries(b, c, id)
    ensures Carries(a, c, id)
  {
  }

  lemma {:induction false} InterleavingEvolves(grace: nat, worlds: seq<World>, moves: seq<Move>, i: nat, j: nat, id: JobId)
    requires IsInterleaving(grace, worlds, moves) && i <= j < |worlds| && id in worlds[i].db.issued
    ensures Carries(worlds[i].db, worlds[j].db, id)
    decreases j
  {
    if i < j {
      InterleavingEvolves(grace, worlds, moves, i, j - 1, id);
      StepCarries(grace, worlds, moves, j - 1, id);
      CarriesThrough(worlds[i].db, worlds[j - 1].db, worlds[j].db, id);
    } else if id in worlds[i].db.jobs {
      assert Evolves(worlds[i].db.jobs[id], worlds[i].db.jobs[id]);
    }
  }

  /** Whether the statement ended its claim's pass: the requeue was granted, or the abort ran. */
  predicate PassEnds(grace: nat, w: World, move: Move) {
    || (move.PassRequeue? && move.holder in w.holders && Accepts(grace, w.db, RequeueOf(w.holders[move.holder], move.delay)))
    || (move.PassAbort? && move.holder in w.holders)
  }

  /** A finished pass leaves no running or aborting row under its claim, whatever the row was (running or
      aborting, marked or not, exhausted or at the ceiling) and whatever happened between its two statements;
      and if the claim's COMMIT had landed, none is ever active under it again. */
  lemma FinishedPassEndsTheClaim(grace: nat, worlds: seq<World>, moves: seq<Move>, i: nat, j: nat)
    requires IsInterleaving(grace, worlds, moves) && i < j < |worlds|
    requires PassEnds(grace, worlds[i], moves[i])
    ensures var holder := worlds[i].holders[moves[i].holder];
            && !ActiveWith(worlds[i + 1].db, holder.token)
            && (holder.tx in worlds[i].landed ==> !ActiveWith(worlds[j].db, holder.token))
  {
    CustodyHolds(grace, worlds, moves, i);
    assert Next(grace, worlds[i], moves[i], worlds[i + 1]);
    var holder := worlds[i].holders[moves[i].holder];
    assert HolderOk(worlds[i], moves[i].holder);
    var step := if moves[i].PassAbort? then AbortOf(holder) else RequeueOf(holder, moves[i].delay);
    WriteEnds(grace, worlds[i].db, step);
    CustodyHolds(grace, worlds, moves, i + 1);
    MoveEvolves(grace, worlds[i], moves[i], worlds[i + 1], holder.token.id);
    InterleavingEvolves(grace, worlds, moves, i + 1, j, holder.token.id);
    if holder.token.id in worlds[i + 1].db.jobs { assert RowOk(worlds[i + 1].db.jobs[holder.token.id]); }
  }

  /** A resolver's statement changes no row but the one active under exactly its claim. */
  lemma PassTouchesOnlyItsClaim(grace: nat, w: World, move: Move, w': World, id: JobId)
    requires CustodyInv(w) && ResolverMove(move) && Next(grace, w, move, w') && id in w.db.jobs
    ensures id !in w'.db.jobs || w'.db.jobs[id] != w.db.jobs[id] ==>
              id == w.holders[move.holder].token.id && ActiveWith(w.db, w.holders[move.holder].token)
  {
    var holder := w.holders[move.holder];
    OnlyTargetChanges(grace, w.db, if move.PassAbort? then AbortOf(holder) else RequeueOf(holder, move.delay), id)
      by { assert HolderOk(w, move.holder); }
  }

  /** Nobody's claim is left with a client that is gone: a dropped attempt, and each claim of a dropped guard whose
      transaction is decided, is with a resolver that may start. */
  lemma DroppedGoesToAResolver(grace: nat, w: World, move: Move, w': World, h: nat)
    requires CustodyInv(w) && Next(grace, w, move, w') && h in w.holders
    requires move == DropAttempt(h, true)
             || (w.holders[h].kind.Guarded? && move == DropGuard(w.holders[h].tx, true) && w.LockFree(w.holders[h].token.worker))
    ensures MayResolve(w', h, false)
  {
  }

  /** A resolver that may start finishes in one statement or two, unless a claim transaction holds the row. */
  lemma ResolverCanFinish(grace: nat, w: World, h: nat) returns (moves: seq<Move>, worlds: seq<World>)
    requires MayResolve(w, h, false) && !w.RowLocked(w.holders[h].token.id)
    ensures 1 <= |moves| <= 2 && |worlds| == |moves| + 1 && worlds[0] == w
    ensures forall i :: 0 <= i < |moves| ==> ResolverMove(moves[i]) && Next(grace, worlds[i], moves[i], worlds[i + 1])
    ensures h in worlds[|moves|].holders && worlds[|moves|].holders[h].kind.Released?
  {
    var requeue := RequeueOf(w.holders[h], 0);
    var w1 := w.(db := Apply(grace, w.db, requeue));
    if Accepts(grace, w.db, requeue) {
      moves, worlds := [PassRequeue(h, 0, true)], [w, w1.(holders := Set(w.holders, h, Released))];
    } else {
      w1 := w1.(holders := Set(w.holders, h, Refused(w.holders[h].kind, true)));
      var abort := AbortOf(w1.holders[h]);
      var w2 := w1.(db := Apply(grace, w1.db, abort), holders := Set(w1.holders, h, Released));
      moves, worlds := [PassRequeue(h, 0, true), PassAbort(h, true)], [w, w1, w2];
      assert w1.LockFree(w.holders[h].token.worker) == w.LockFree(w.holders[h].token.worker);
      assert w1.RowLocked(w.holders[h].token.id) == w.RowLocked(w.holders[h].token.id);
      assert Next(grace, w, moves[0], w1);
      assert Next(grace, w1, moves[1], w2);
    }
  }

  /** A record is let go exactly by an acknowledged statement that settles it: the attempt's own, accepted, or its
      resolver's accepted requeue or its abort. */
  lemma ReleasedExactlyWhenSettled(grace: nat, w: World, move: Move, w': World, h: nat)
    requires CustodyInv(w) && Next(grace, w, move, w') && h in w.holders && !w.holders[h].kind.Released?
    ensures h in w'.holders
    ensures w'.holders[h].kind.Released? <==>
            match move
            case Settle(k, step, acknowledged) => k == h && acknowledged && Accepts(grace, w.db, step)
            case PassRequeue(k, delay, acknowledged) => k == h && acknowledged && Accepts(grace, w.db, RequeueOf(w.holders[h], delay))
            case PassAbort(k, acknowledged) => k == h && acknowledged
            case _ => false
  {
    match move
    case Settle(_, _, _) => case PassRequeue(_, _, _) => case PassAbort(_, _) => case PassFails(_) =>
    case Arm(_, _) => assert w'.holders[h] == w.holders[h];
    case _ =>
  }

  /** Whose claim a commit resolver finds: if its own COMMIT landed, no consumer holds the attempt and no other
      landed record exists; if it did not, the row belongs to a later claim that got the same attempt number. */
  lemma ResolverFindsItsOwnClaimIffItLanded(w: World, h: nat)
    requires CustodyInv(w) && h in w.holders && ActiveWith(w.db, w.holders[h].token)
    ensures w.holders[h].tx in w.landed <==>
            forall k <- w.holders :: k != h && w.holders[k].token == w.holders[h].token ==> w.holders[k].tx !in w.landed
    ensures w.holders[h].tx in w.landed ==>
            forall k <- w.holders :: k != h && w.holders[k].token == w.holders[h].token ==> !w.holders[k].kind.Attempting?
    ensures w.holders[h].tx !in w.landed ==>
            exists k <- w.holders :: k != h && w.holders[k].token == w.holders[h].token && w.holders[k].tx in w.landed
                                     && !w.holders[k].kind.Released?
  {
    var token := w.holders[h].token;
    assert Answered(w, token, w.landed);
    forall k <- w.holders ensures HolderOk(w, k) {}
  }
}
