/**
 The claim that was rolled back and granted again: when a resolver takes an attempt that somebody
 else is running, told from the claim transactions of its worker alone, and a run in which it does.
 */
module Reissue {
  import opened Rows
  import opened Lifecycle
  import opened Invariants
  import opened Custody
  import opened CustodyTheorems

  /** Move `a` opens the claim transaction `x`. */
  predicate Opens(moves: seq<Move>, a: int, x: nat) {
    0 <= a < |moves| && moves[a].OpenClaim? && moves[a].tx == x
  }

  /** The worker that `holder` belongs to opened another claim transaction over the same job after the holder's own, and
      that one landed before move `i`. */
  ghost predicate Reclaimed(moves: seq<Move>, i: nat, holder: Holder) {
    exists mine, again, landed ::
      && Opens(moves, mine, holder.tx) && mine < again < landed < i <= |moves| && moves[again].OpenClaim?
      && Some(moves[again].worker) == holder.token.worker && holder.token.id in moves[again].ids
      && moves[landed] == CommitLands(moves[again].tx)
  }

  // ---- Where transactions and records come from ----

  lemma {:induction false} SeenForever(grace: nat, worlds: seq<World>, moves: seq<Move>, i: nat, j: nat, x: nat)
    requires IsInterleaving(grace, worlds, moves) && i <= j < |worlds| && x in worlds[i].seen
    ensures x in worlds[j].seen
    decreases j
  {
    if i < j {
      SeenForever(grace, worlds, moves, i, j - 1, x);
      assert Next(grace, worlds[j - 1], moves[j - 1], worlds[j]);
    }
  }

  lemma OpenedOnce(grace: nat, worlds: seq<World>, moves: seq<Move>, a: nat, b: nat, x: nat)
    requires IsInterleaving(grace, worlds, moves) && Opens(moves, a, x) && Opens(moves, b, x)
    ensures a == b
  {
    assert Next(grace, worlds[a], moves[a], worlds[a + 1]) && Next(grace, worlds[b], moves[b], worlds[b + 1]);
    if a < b { SeenForever(grace, worlds, moves, a + 1, b, x); }
    if b < a { SeenForever(grace, worlds, moves, b + 1, a, x); }
  }

  /** A transaction is open with what it claimed since the move that opened it. */
  lemma TxStep(grace: nat, w: World, move: Move, w': World, x: nat)
    requires Next(grace, w, move, w') && x in w'.txs && w.txs.Keys <= w.seen
    ensures if x in w.txs then w'.txs[x].worker == w.txs[x].worker && w'.txs[x].claims == w.txs[x].claims
            else move.OpenClaim? && move.tx == x && w'.txs[x].worker == move.worker && w'.txs[x].claims == ClaimsOf(w.db, move.ids)
  {
  }

  /** A record keeps its claim and its transaction, and starts in a guard armed for a transaction open then. */
  lemma RecordStep(grace: nat, w: World, move: Move, w': World, h: nat)
    requires Next(grace, w, move, w') && h in w'.holders
    ensures var holder := w'.holders[h];
            if h in w.holders then holder.tx == w.holders[h].tx && holder.token == w.holders[h].token
            else && holder.tx in w.txs && holder.token.id in w.txs[holder.tx].claims
                 && holder.token == TokenOf(w.txs[holder.tx], holder.token.id)
  {
  }

  lemma {:induction false} TxOrigin(grace: nat, worlds: seq<World>, moves: seq<Move>, i: nat, x: nat) returns (a: nat)
    requires IsInterleaving(grace, worlds, moves) && i < |worlds| && x in worlds[i].txs
    ensures a < i && Opens(moves, a, x) && worlds[i].txs[x].worker == moves[a].worker
    ensures worlds[i].txs[x].claims == ClaimsOf(worlds[a].db, moves[a].ids)
    decreases i
  {
    assert Next(grace, worlds[i - 1], moves[i - 1], worlds[i]);
    CustodyHolds(grace, worlds, moves, i - 1);
    TxStep(grace, worlds[i - 1], moves[i - 1], worlds[i], x);
    if x in worlds[i - 1].txs {
      a := TxOrigin(grace, worlds, moves, i - 1, x);
    } else {
      a := i - 1;
    }
  }

  /** A record comes from the guard armed for a transaction that was open then. */
  lemma {:induction false} RecordOrigin(grace: nat, worlds: seq<World>, moves: seq<Move>, i: nat, h: nat) returns (armed: nat)
    requires IsInterleaving(grace, worlds, moves) && i < |worlds| && h in worlds[i].holders
    ensures var holder := worlds[i].holders[h];
            && armed < i && holder.tx in worlds[armed].txs && holder.token.id in worlds[armed].txs[holder.tx].claims
            && holder.token == TokenOf(worlds[armed].txs[holder.tx], holder.token.id)
    decreases i
  {
    assert Next(grace, worlds[i - 1], moves[i - 1], worlds[i]);
    RecordStep(grace, worlds[i - 1], moves[i - 1], worlds[i], h);
    if h in worlds[i - 1].holders {
      armed := RecordOrigin(grace, worlds, moves, i - 1, h);
    } else {
      armed := i - 1;
    }
  }

  /** Move `a` opens the claim of `token` under the transaction `x`. */
  ghost predicate ClaimsAt(worlds: seq<World>, moves: seq<Move>, a: int, x: nat, token: Token) {
    && Opens(moves, a, x) && a < |worlds| && Some(moves[a].worker) == token.worker
    && token.id in moves[a].ids && token.id in worlds[a].db.jobs
    && worlds[a].db.jobs[token.id].attempts + 1 == token.attempts
  }

  lemma RecordOpened(grace: nat, worlds: seq<World>, moves: seq<Move>, i: nat, h: nat) returns (a: nat)
    requires IsInterleaving(grace, worlds, moves) && i < |worlds| && h in worlds[i].holders
    ensures a < i && ClaimsAt(worlds, moves, a, worlds[i].holders[h].tx, worlds[i].holders[h].token)
  {
    var armed := RecordOrigin(grace, worlds, moves, i, h);
    a := TxOrigin(grace, worlds, moves, armed, worlds[i].holders[h].tx);
  }

  lemma {:induction false} LandOrigin(grace: nat, worlds: seq<World>, moves: seq<Move>, i: nat, x: nat) returns (b: nat)
    requires IsInterleaving(grace, worlds, moves) && i < |worlds| && x in worlds[i].landed
    ensures b < i && moves[b] == CommitLands(x)
    decreases i
  {
    assert Next(grace, worlds[i - 1], moves[i - 1], worlds[i]);
    if x in worlds[i - 1].landed { b := LandOrigin(grace, worlds, moves, i - 1, x); } else { b := i - 1; }
  }

  // ---- Two claim transactions of one worker over one job ----

  /** A transaction lands after it was opened, and then the row has the attempt number it claimed. */
  lemma LandingCounts(grace: nat, worlds: seq<World>, moves: seq<Move>, a: nat, b: nat, x: nat, token: Token)
    requires IsInterleaving(grace, worlds, moves) && ClaimsAt(worlds, moves, a, x, token)
    requires b < |moves| && moves[b] == CommitLands(x)
    ensures a < b && x in worlds[b].txs
    ensures token.id in worlds[b + 1].db.jobs && worlds[b + 1].db.jobs[token.id].attempts == token.attempts
    ensures token.id in worlds[b + 1].db.issued
  {
    assert Next(grace, worlds[b], moves[b], worlds[b + 1]);
    CustodyHolds(grace, worlds, moves, b);
    CustodyHolds(grace, worlds, moves, b + 1);
    var opening := TxOrigin(grace, worlds, moves, b, x);
    OpenedOnce(grace, worlds, moves, a, opening, x);
    assert TxOk(worlds[b], x);
  }

  /** The worker's lock: its earlier transaction is decided when it opens the next. */
  lemma DecidedFirst(grace: nat, worlds: seq<World>, moves: seq<Move>, first: nat, second: nat, x: nat)
    requires IsInterleaving(grace, worlds, moves) && first < second < |moves| && Opens(moves, first, x)
    requires moves[second].OpenClaim? && moves[second].worker == moves[first].worker
    ensures x in worlds[second].seen && x !in worlds[second].txs
  {
    assert Next(grace, worlds[first], moves[first], worlds[first + 1]);
    assert Next(grace, worlds[second], moves[second], worlds[second + 1]);
    SeenForever(grace, worlds, moves, first + 1, second, x);
    if x in worlds[second].txs {
      var a := TxOrigin(grace, worlds, moves, second, x);
      OpenedOnce(grace, worlds, moves, a, first, x);
      assert false;
    }
  }

  /** So if the earlier one landed at all, the later one claims a higher attempt. */
  lemma LaterClaimIsHigher(grace: nat, worlds: seq<World>, moves: seq<Move>, first: nat, second: nat, b: nat, x: nat, token: Token)
    requires IsInterleaving(grace, worlds, moves) && first < second < |moves| && ClaimsAt(worlds, moves, first, x, token)
    requires moves[second].OpenClaim? && moves[second].worker == moves[first].worker
    requires b < |moves| && moves[b] == CommitLands(x) && token.id in worlds[second].db.jobs
    ensures token.attempts <= worlds[second].db.jobs[token.id].attempts
  {
    DecidedFirst(grace, worlds, moves, first, second, x);
    LandingCounts(grace, worlds, moves, first, b, x, token);
    if second <= b { ResolvedForever(grace, worlds, moves, second, b, x); }
    InterleavingEvolves(grace, worlds, moves, b + 1, second, token.id);
  }

  // ---- The condition ----

  lemma ReclaimedIfNotLanded(grace: nat, worlds: seq<World>, moves: seq<Move>, i: nat, h: nat)
    requires IsInterleaving(grace, worlds, moves) && i < |worlds| && h in worlds[i].holders
    requires ActiveWith(worlds[i].db, worlds[i].holders[h].token) && worlds[i].holders[h].tx !in worlds[i].landed
    ensures Reclaimed(moves, i, worlds[i].holders[h])
  {
    var holder := worlds[i].holders[h];
    var k := NoOrphanedClaim(grace, worlds, moves, i, holder.token.id);
    var other := worlds[i].holders[k];
    var mine := RecordOpened(grace, worlds, moves, i, h);
    var again := RecordOpened(grace, worlds, moves, i, k);
    var landed := LandOrigin(grace, worlds, moves, i, other.tx);
    LandingCounts(grace, worlds, moves, again, landed, other.tx, other.token);
    if again < mine { LaterClaimIsHigher(grace, worlds, moves, again, mine, landed, other.tx, other.token); }
    assert mine < again;
  }

  lemma LandedIfNotReclaimed(grace: nat, worlds: seq<World>, moves: seq<Move>, i: nat, h: nat)
    requires IsInterleaving(grace, worlds, moves) && i < |worlds| && h in worlds[i].holders
    requires worlds[i].holders[h].tx in worlds[i].landed && Reclaimed(moves, i, worlds[i].holders[h])
    ensures !ActiveWith(worlds[i].db, worlds[i].holders[h].token)
  {
    var holder := worlds[i].holders[h];
    var mine, again, landed :|
      && Opens(moves, mine, holder.tx) && mine < again < landed < i <= |moves| && moves[again].OpenClaim?
      && Some(moves[again].worker) == holder.token.worker && holder.token.id in moves[again].ids
      && moves[landed] == CommitLands(moves[again].tx);
    var first := RecordOpened(grace, worlds, moves, i, h);
    OpenedOnce(grace, worlds, moves, mine, first, holder.tx);
    var b := LandOrigin(grace, worlds, moves, i, holder.tx);
    assert Next(grace, worlds[again], moves[again], worlds[again + 1]);
    var id := holder.token.id;
    assert Accepts(grace, worlds[again].db, Claim(moves[again].queue, id, moves[again].worker, moves[again].low, moves[again].high));
    LaterClaimIsHigher(grace, worlds, moves, first, again, b, holder.tx, holder.token);
    var next := Token(id, worlds[again].db.jobs[id].attempts + 1, holder.token.worker);
    LandingCounts(grace, worlds, moves, again, landed, moves[again].tx, next);
    InterleavingEvolves(grace, worlds, moves, landed + 1, i, id);
  }

  /** An active row a record matches belongs to somebody else exactly when the record's own worker has since opened
      another claim transaction over that job and it landed. */
  lemma NotItsOwnIffReclaimed(grace: nat, worlds: seq<World>, moves: seq<Move>, i: nat, h: nat)
    requires IsInterleaving(grace, worlds, moves) && i < |worlds| && h in worlds[i].holders
    requires ActiveWith(worlds[i].db, worlds[i].holders[h].token)
    ensures worlds[i].holders[h].tx !in worlds[i].landed <==> Reclaimed(moves, i, worlds[i].holders[h])
  {
    if worlds[i].holders[h].tx !in worlds[i].landed { ReclaimedIfNotLanded(grace, worlds, moves, i, h); }
    else if Reclaimed(moves, i, worlds[i].holders[h]) { LandedIfNotReclaimed(grace, worlds, moves, i, h); }
  }

  // ---- A run ----

  function SampleRow(): Row {
    Row("q", "job", None, PlainJob, 0, None, None, None, Queued, 0, 1, 0, None, None, None, None, None, None, None, None, false)
  }

  function SampleDb(): Db { Db(map[1 := SampleRow()], map[7 := Lease("q", 100, true)], 0, {1}) }

  function SampleRunning(): Db { SampleDb().(jobs := map[1 := ClaimedRow(SampleRow(), 7, 0)]) }

  function SampleTx(armed: bool): Tx { Tx(7, "q", map[1 := 1], 0, armed) }

  function Record(tx: nat, kind: Custodian): Holder { Holder(Token(1, 1, Some(7)), "q", tx, kind) }

  function SampleMove(i: nat): Move {
    match i
    case 0 => OpenClaim(0, 7, "q", {1}, 0, 0)
    case 1 => Arm(0, map[0 := 1])
    case 2 => CommitFails(0)
    case 3 => DropGuard(0, true)
    case 4 => OpenClaim(1, 7, "q", {1}, 0, 0)
    case 5 => Arm(1, map[1 := 1])
    case 6 => CommitLands(1)
    case 7 => Acknowledge(1)
    case _ => PassRequeue(0, 0, true)
  }

  function SampleWorld(i: nat): World {
    var db, running := SampleDb(), SampleRunning();
    var resolving := Record(0, ResolvingCommit(false));
    match i
    case 0 => World(db, map[], map[], {}, {})
    case 1 => World(db, map[0 := SampleTx(false)], map[], {}, {0})
    case 2 => World(db, map[0 := SampleTx(true)], map[0 := Record(0, Guarded)], {}, {0})
    case 3 => World(db, map[], map[0 := Record(0, Guarded)], {}, {0})
    case 4 => World(db, map[], map[0 := resolving], {}, {0})
    case 5 => World(db, map[1 := SampleTx(false)], map[0 := resolving], {}, {0, 1})
    case 6 => World(db, map[1 := SampleTx(true)], map[0 := resolving, 1 := Record(1, Guarded)], {}, {0, 1})
    case 7 => World(running, map[], map[0 := resolving, 1 := Record(1, Guarded)], {1}, {0, 1})
    case 8 => World(running, map[], map[0 := resolving, 1 := Record(1, Attempting)], {1}, {0, 1})
    case _ => World(Apply(1, running, RequeueOf(resolving, 0)), map[],
                    map[0 := Record(0, Released), 1 := Record(1, Attempting)], {1}, {0, 1})
  }

  lemma SampleOpens(w: World, x: nat)
    requires w.db == SampleDb() && w.txs == map[] && x !in w.seen
    ensures Next(1, w, OpenClaim(x, 7, "q", {1}, 0, 0), w.(txs := map[x := SampleTx(false)], seen := w.seen + {x}))
  {
    assert ClaimsOf(w.db, {1}) == map[1 := 1];
    assert w.txs[x := SampleTx(false)] == map[x := SampleTx(false)];
  }

  lemma SampleArms(w: World, x: nat)
    requires w.txs == map[x := SampleTx(false)] && x !in w.holders
    ensures Next(1, w, Arm(x, map[x := 1]), w.(txs := map[x := SampleTx(true)], holders := w.holders[x := Record(x, Guarded)]))
  {
    assert map[x := 1].Values == {1} by { assert map[x := 1][x] == 1; }
    assert w.txs[x := SampleTx(true)] == map[x := SampleTx(true)];
  }

  lemma SampleDecides(w: World, x: nat)
    requires w.db == SampleDb() && w.txs == map[x := SampleTx(true)]
    ensures Next(1, w, CommitFails(x), w.(txs := map[]))
    ensures Next(1, w, CommitLands(x), w.(db := SampleRunning(), txs := map[], landed := w.landed + {x}))
  {
    assert w.txs - {x} == map[];
    assert Land(w.db, w.txs[x]).jobs == SampleRunning().jobs;
  }

  lemma SamplePass()
    ensures Next(1, SampleWorld(8), SampleMove(8), SampleWorld(9))
    ensures SampleWorld(9).db.jobs[1].status.Queued?
  {
    var w := SampleWorld(8);
    assert w.LockFree(Some(7)) && !w.RowLocked(1);
    assert Accepts(1, w.db, RequeueOf(w.holders[0], 0));
    assert Set(w.holders, 0, Released) == SampleWorld(9).holders;
  }

  lemma SampleFirst(i: nat)
    requires i < 4
    ensures Next(1, SampleWorld(i), SampleMove(i), SampleWorld(i + 1))
  {
    var w, w' := SampleWorld(i), SampleWorld(i + 1);
    match i
    case 0 => SampleOpens(w, 0);
    case 1 => SampleArms(w, 0); assert w.holders[0 := Record(0, Guarded)] == w'.holders;
    case 2 => SampleDecides(w, 0);
    case _ => assert Retag(w.holders, 0, ResolvingCommit(false)) == w'.holders;
  }

  lemma SampleSecond(i: nat)
    requires 4 <= i < 8
    ensures Next(1, SampleWorld(i), SampleMove(i), SampleWorld(i + 1))
  {
    var w, w' := SampleWorld(i), SampleWorld(i + 1);
    match i
    case 4 => SampleOpens(w, 1); assert w.seen + {1} == w'.seen;
    case 5 => SampleArms(w, 1); assert w.holders[1 := Record(1, Guarded)] == w'.holders;
    case 6 => SampleDecides(w, 1); assert w.landed + {1} == w'.landed;
    case _ => assert Retag(w.holders, 1, Attempting) == w'.holders;
  }

  lemma SampleStep(i: nat)
    requires i < 9
    ensures Next(1, SampleWorld(i), SampleMove(i), SampleWorld(i + 1))
  {
    if i < 4 { SampleFirst(i); } else if i < 8 { SampleSecond(i); } else { SamplePass(); }
  }

  lemma SampleTaken()
    ensures var w, w' := SampleWorld(8), SampleWorld(9);
            && w.holders[1].kind.Attempting? && ActiveWith(w.db, w.holders[1].token) && w.holders[0].tx !in w.landed
            && w'.holders[1].kind.Attempting? && !ActiveWith(w'.db, w'.holders[1].token)
  {
    SamplePass();
  }

  /** A resolver can take an attempt a consumer is running: its own COMMIT failed, the same worker claimed the
      same attempt again and was acknowledged, and the pass then requeues that row. */
  lemma ReissuedClaimCanBeTaken()
    ensures IsInterleaving(1, seq(10, i requires 0 <= i => SampleWorld(i)), seq(9, i requires 0 <= i => SampleMove(i)))
    ensures var w, w' := SampleWorld(8), SampleWorld(9);
            && w.holders[1].kind.Attempting? && ActiveWith(w.db, w.holders[1].token) && w.holders[0].tx !in w.landed
            && w'.holders[1].kind.Attempting? && !ActiveWith(w'.db, w'.holders[1].token)
  {
    forall i: nat | i < 9 ensures Next(1, SampleWorld(i), SampleMove(i), SampleWorld(i + 1)) { SampleStep(i); }
    SampleTaken();
  }
}
