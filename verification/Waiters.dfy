/**
 Completion waiters. The listener keeps the registrations of each job id in a map of lists and
 delivers an event to exactly the registrations of its id; the protocol module below shows that
 the order mark-awaited, subscribe, poll leaves no gap for a finish to fall into.
 */
module Listener {
  import opened Rows

  /** One `(key, sender)` of the map together with what its capacity-one channel holds. */
  datatype Registration = Registration(key: nat, inbox: Option<Status>)

  /** A registration seen from outside the map: who waits, for what, and what arrived. */
  datatype Entry = Entry(id: JobId, key: nat, inbox: Option<Status>)

  type Waiters = map<JobId, seq<Registration>>

  function EntriesOf(done: Waiters): set<Entry> {
    set id, i | id in done && 0 <= i < |done[id]| :: Entry(id, done[id][i].key, done[id][i].inbox)
  }

  /** `try_send` on a capacity-one channel: a second event is dropped. */
  function Sent(registration: Registration, status: Status): Registration {
    if registration.inbox.None? then registration.(inbox := Some(status)) else registration
  }

  function Received(entry: Entry, id: JobId, status: Status): Entry {
    if entry.id == id && entry.inbox.None? then entry.(inbox := Some(status)) else entry
  }

  /** `registrations.retain(|(k, _)| k != key)`. */
  function Retain(registrations: seq<Registration>, key: nat): (kept: seq<Registration>)
    ensures forall r :: r in kept <==> r in registrations && r.key != key
  {
    if registrations == [] then [] else
    var rest := Retain(registrations[1..], key);
    assert registrations == [registrations[0]] + registrations[1..];
    if registrations[0].key != key then [registrations[0]] + rest else rest
  }

  lemma InEntries(done: Waiters, entry: Entry)
    ensures entry in EntriesOf(done) <==> entry.id in done && Registration(entry.key, entry.inbox) in done[entry.id]
  {
    if entry.id in done && Registration(entry.key, entry.inbox) in done[entry.id] {
      var i :| 0 <= i < |done[entry.id]| && done[entry.id][i] == Registration(entry.key, entry.inbox);
    }
  }

  /** The delivery loop over the cloned senders of one id. */
  method SendAll(registrations: seq<Registration>, status: Status) returns (sent: seq<Registration>)
    ensures |sent| == |registrations|
    ensures forall j :: 0 <= j < |sent| ==> sent[j] == Sent(registrations[j], status)
  {
    sent := registrations;
    for i := 0 to |registrations|
      invariant |sent| == |registrations|
      invariant forall j :: 0 <= j < i ==> sent[j] == Sent(registrations[j], status)
      invariant forall j :: i <= j < |sent| ==> sent[j] == registrations[j]
    {
      sent := sent[i := Sent(sent[i], status)];
    }
  }

  /** Sending to the list of one id is receiving by the entries of that id. */
  lemma DeliveredEntries(before: Waiters, after: Waiters, id: JobId, status: Status)
    requires after.Keys == before.Keys
    requires forall k <- before :: k != id ==> after[k] == before[k]
    requires id in before ==> |after[id]| == |before[id]|
                              && forall j :: 0 <= j < |before[id]| ==> after[id][j] == Sent(before[id][j], status)
    ensures EntriesOf(after) == set e <- EntriesOf(before) :: Received(e, id, status)
  {
    var received := set e <- EntriesOf(before) :: Received(e, id, status);
    forall e <- EntriesOf(after) ensures e in received {
      var i :| 0 <= i < |after[e.id]| && e == Entry(e.id, after[e.id][i].key, after[e.id][i].inbox);
      var was := Entry(e.id, before[e.id][i].key, before[e.id][i].inbox);
      assert was in EntriesOf(before) && e == Received(was, id, status);
    }
    forall e <- received ensures e in EntriesOf(after) {
      var was :| was in EntriesOf(before) && e == Received(was, id, status);
      var i :| 0 <= i < |before[was.id]| && was == Entry(was.id, before[was.id][i].key, before[was.id][i].inbox);
      assert e == Entry(was.id, after[was.id][i].key, after[was.id][i].inbox);
    }
  }

  class QueueNotifyListener {
    var done: Waiters
    var nextKey: nat

    ghost function Entries(): set<Entry> reads this { EntriesOf(done) }

    /** Keys are handed out once, and no id keeps an empty list behind. */
    ghost predicate Valid() reads this {
      && (forall e <- Entries() :: e.key < nextKey)
      && (forall e, f | e in Entries() && f in Entries() && e.key == f.key :: e == f)
      && (forall id <- done :: done[id] != [])
    }

    constructor ()
      ensures Valid() && Entries() == {}
    {
      done, nextKey := map[], 0;
    }

    method SubscribeDone(id: JobId) returns (key: nat)
      requires Valid()
      modifies this
      ensures Valid() && Entries() == old(Entries()) + {Entry(id, key, None)}
      ensures forall e <- old(Entries()) :: e.key != key
    {
      key := nextKey;
      nextKey := nextKey + 1;
      var registrations := if id in done then done[id] else [];
      ghost var before := done;
      done := done[id := registrations + [Registration(key, None)]];
      forall e: Entry ensures e in Entries() <==> e in EntriesOf(before) || e == Entry(id, key, None) {
        InEntries(before, e);
        InEntries(done, e);
      }
      assert Entries() == EntriesOf(before) + {Entry(id, key, None)};
    }

    /** Delivery of one completion event: the registrations of its id, and no other, receive it. */
    method Deliver(id: JobId, status: Status)
      requires Valid()
      modifies this`done
      ensures Valid()
      ensures Entries() == set e <- old(Entries()) :: Received(e, id, status)
    {
      ghost var before := done;
      if id in done {
        var registrations := SendAll(done[id], status);
        done := done[id := registrations];
      }
      DeliveredEntries(before, done, id, status);
    }

    /** Dropping a subscription removes its own registration and nothing else. */
    method Unsubscribe(id: JobId, key: nat)
      requires Valid() && forall e <- Entries() :: e.key == key ==> e.id == id
      modifies this`done
      ensures Valid() && Entries() == set e <- old(Entries()) | e.key != key
    {
      ghost var before := done;
      if id in done {
        var registrations := Retain(done[id], key);
        done := if registrations == [] then done - {id} else done[id := registrations];
      }
      forall e: Entry ensures e in Entries() <==> e in EntriesOf(before) && e.key != key {
        InEntries(before, e);
        InEntries(done, e);
      }
    }
  }
}

/** The wait protocol, interleaved with every step of the lifecycle. */
module WaitProtocol {
  import Listener
  import opened Rows
  import opened Lifecycle
  import opened Invariants
  import opened Completion

  /** How far a wait got: it marked the row awaited, then registered, then read the row once. */
  datatype Phase = Marked | Subscribed(inbox: bool) | Polled(sawFinished: bool, inbox: bool)

  datatype Wait = Wait(id: JobId, phase: Phase) {
    function Receive(done: JobId): Wait {
      if id != done || phase.Marked? then this else
      if phase.Subscribed? then this.(phase := Subscribed(true)) else this.(phase := Polled(phase.sawFinished, true))
    }
  }

  /** `inflight` are committed notifications the listener has not delivered yet, in order; `purged` the ids an
      operator deleted while queued, which notify nobody. */
  datatype World = World(db: Db, inflight: seq<JobId>, waits: map<nat, Wait>, purged: set<JobId>)

  datatype Move =
    | Database(step: Step)
    | Register(waiter: nat, queue: Queue, id: JobId)
    | Subscribe(waiter: nat)
    | Poll(waiter: nat)
    | Deliver
    | Leave(waiter: nat)

  function Purges(grace: nat, db: Db, step: Step): set<JobId> {
    if step.PurgeQueued? && Accepts(grace, db, step) then {step.id} else {}
  }

  function Advance(grace: nat, w: World, step: Step): World {
    World(Apply(grace, w.db, step),
          w.inflight + (match Notifies(grace, w.db, step) case Some(id) => [id] case None => []),
          w.waits, w.purged + Purges(grace, w.db, step))
  }

  /** One move of the interleaving. A handle waits for an id some enqueue on this queue returned. */
  ghost predicate Next(grace: nat, w: World, move: Move, w': World) {
    match move
    case Database(step) => Legal(w.db, step) && w' == Advance(grace, w, step)
    case Register(waiter, queue, id) =>
      && waiter !in w.waits && id in w.db.issued && (id in w.db.jobs ==> w.db.jobs[id].queue == queue)
      && var marked := Advance(grace, w, MarkAwaited(queue, id));
         w' == marked.(waits := w.waits[waiter := Wait(id, Marked)])
    case Subscribe(waiter) =>
      && waiter in w.waits && w.waits[waiter].phase.Marked?
      && w' == w.(waits := w.waits[waiter := w.waits[waiter].(phase := Subscribed(false))])
    case Poll(waiter) =>
      && waiter in w.waits && w.waits[waiter].phase.Subscribed?
      && var wait := w.waits[waiter];
         w' == w.(waits := w.waits[waiter := wait.(phase := Polled(!Unfinished(w.db, wait.id), wait.phase.inbox))])
    case Deliver =>
      && w.inflight != []
      && w' == w.(inflight := w.inflight[1..], waits := map n <- w.waits :: w.waits[n].Receive(w.inflight[0]))
    case Leave(waiter) => w' == w.(waits := w.waits - {waiter})
  }

  /** A wait that is before its poll has its row marked; one that polled an unfinished job and whose job has
      finished since holds the event, or the event is on its way to it. */
  predicate Covered(w: World, wait: Wait) {
    && wait.id in w.db.issued
    && (Unfinished(w.db, wait.id) ==> Awaited(w.db, wait.id))
    && (wait.phase.Polled? && !wait.phase.sawFinished && !Unfinished(w.db, wait.id) ==>
          wait.phase.inbox || wait.id in w.inflight || wait.id in w.purged)
  }

  ghost predicate AllCovered(w: World) {
    Inv(w.db) && forall n <- w.waits :: Covered(w, w.waits[n])
  }

  lemma StepKeepsCovered(grace: nat, w: World, step: Step, wait: Wait)
    requires Inv(w.db) && Legal(w.db, step) && Covered(w, wait)
    ensures Covered(Advance(grace, w, step), wait)
  {
    RowEffect(grace, w.db, step, wait.id);
    NotifiesIffTerminal(grace, w.db, step, wait.id);
    if wait.id in w.db.jobs { OnlyTargetChanges(grace, w.db, step, wait.id); }
  }

  lemma MoveKeepsCovered(grace: nat, w: World, move: Move, w': World)
    requires AllCovered(w) && Next(grace, w, move, w')
    ensures AllCovered(w')
  {
    match move
    case Database(step) =>
      StepKeepsInv(grace, w.db, step);
      forall n <- w'.waits ensures Covered(w', w'.waits[n]) { StepKeepsCovered(grace, w, step, w.waits[n]); }
    case Register(waiter, queue, id) =>
      var mark := MarkAwaited(queue, id);
      StepKeepsInv(grace, w.db, mark);
      RowEffect(grace, w.db, mark, id);
      forall n <- w'.waits ensures Covered(w', w'.waits[n]) {
        if n != waiter { StepKeepsCovered(grace, w, mark, w.waits[n]); }
      }
    case Deliver =>
      assert w.inflight == [w.inflight[0]] + w.inflight[1..];
    case _ =>
  }

  // ---- Nobody is told too much ----

  /** The job finished, other than by an operator deleting it from the queue. */
  predicate Told(w: World, id: JobId) {
    id in w.db.issued && id !in w.purged && !Unfinished(w.db, id)
  }

  predicate HasEvent(wait: Wait) { !wait.phase.Marked? && wait.phase.inbox }

  /** Events on their way or delivered are of jobs that finished; a purged job has no row. */
  ghost predicate Honest(w: World) {
    && (forall id <- w.inflight :: Told(w, id))
    && (forall id <- w.purged :: id in w.db.issued && id !in w.db.jobs)
    && (forall n <- w.waits :: HasEvent(w.waits[n]) ==> Told(w, w.waits[n].id))
  }

  lemma StepKeepsTold(grace: nat, w: World, step: Step, id: JobId)
    requires Inv(w.db) && Legal(w.db, step) && Told(w, id)
    ensures Told(Advance(grace, w, step), id)
  {
    RowEffect(grace, w.db, step, id);
  }

  lemma NoticeIsTold(grace: nat, w: World, step: Step, id: JobId)
    requires Inv(w.db) && Legal(w.db, step) && Honest(w) && Notifies(grace, w.db, step) == Some(id)
    ensures Told(Advance(grace, w, step), id)
  {
    NotifiesIffTerminal(grace, w.db, step, id);
    RowEffect(grace, w.db, step, id);
  }

  lemma PurgedIsGone(grace: nat, w: World, step: Step, id: JobId)
    requires Inv(w.db) && Legal(w.db, step) && Honest(w) && id in w.purged + Purges(grace, w.db, step)
    ensures var after := Apply(grace, w.db, step); id in after.issued && id !in after.jobs
  {
    RowEffect(grace, w.db, step, id);
  }

  lemma StepKeepsHonest(grace: nat, w: World, step: Step)
    requires Inv(w.db) && Legal(w.db, step) && Honest(w)
    ensures Honest(Advance(grace, w, step))
  {
    var w' := Advance(grace, w, step);
    forall id <- w'.inflight ensures Told(w', id) {
      if id in w.inflight { StepKeepsTold(grace, w, step, id); } else { NoticeIsTold(grace, w, step, id); }
    }
    forall id <- w'.purged ensures id in w'.db.issued && id !in w'.db.jobs { PurgedIsGone(grace, w, step, id); }
    forall n <- w'.waits | HasEvent(w'.waits[n]) ensures Told(w', w'.waits[n].id) { StepKeepsTold(grace, w, step, w.waits[n].id); }
  }

  lemma MoveKeepsHonest(grace: nat, w: World, move: Move, w': World)
    requires Inv(w.db) && Honest(w) && Next(grace, w, move, w')
    ensures Honest(w')
  {
    match move
    case Database(step) => StepKeepsHonest(grace, w, step);
    case Register(_, queue, id) => StepKeepsHonest(grace, w, MarkAwaited(queue, id));
    case Deliver =>
      assert w.inflight == [w.inflight[0]] + w.inflight[1..];
      forall id <- w'.inflight ensures Told(w', id) { assert id in w.inflight && Told(w, id); }
      forall n <- w'.waits | HasEvent(w'.waits[n]) ensures Told(w', w'.waits[n].id) {
        assert w'.waits[n] == w.waits[n].Receive(w.inflight[0]);
        assert HasEvent(w.waits[n]) || w.waits[n].id == w.inflight[0];
        assert Told(w, w.waits[n].id);
      }
    case _ =>
  }

  /** Runs that start without waiters, notifications or purges. */
  ghost predicate IsInterleaving(grace: nat, worlds: seq<World>, moves: seq<Move>) {
    && |worlds| == |moves| + 1 && Inv(worlds[0].db)
    && worlds[0].waits == map[] && worlds[0].inflight == [] && worlds[0].purged == {}
    && forall k :: 0 <= k < |moves| ==> Next(grace, worlds[k], moves[k], worlds[k + 1])
  }

  /** For every interleaving of finishes, marks, subscriptions, polls and deliveries: a waiter that polled an unfinished
      job which is now gone or finished has the event, or will be handed it by a delivery still due, exactly when no
      operator deleted the job from the queue. */
  lemma {:induction false} NoLostCompletion(grace: nat, worlds: seq<World>, moves: seq<Move>, i: nat, n: nat)
    requires IsInterleaving(grace, worlds, moves) && i < |worlds|
    ensures AllCovered(worlds[i]) && Honest(worlds[i])
    ensures n in worlds[i].waits && worlds[i].waits[n].phase.Polled? && !worlds[i].waits[n].phase.sawFinished
            && !Unfinished(worlds[i].db, worlds[i].waits[n].id) ==>
              var wait := worlds[i].waits[n];
              wait.phase.inbox || wait.id in worlds[i].inflight <==> wait.id !in worlds[i].purged
  {
    if i > 0 {
      NoLostCompletion(grace, worlds, moves, i - 1, n);
      assert Next(grace, worlds[i - 1], moves[i - 1], worlds[i]);
      MoveKeepsCovered(grace, worlds[i - 1], moves[i - 1], worlds[i]);
      MoveKeepsHonest(grace, worlds[i - 1], moves[i - 1], worlds[i]);
    }
  }

  function OneQueued(awaited: bool): Db {
    Db(map[1 := NewRow("q", Request("job", None, PlainJob, 0, 1, None, None, None, 0, awaited))], map[], 0, {1})
  }

  /** The exception is real: a job registered for, subscribed to and polled, then purged from the queue. Its waiter saw it
      unfinished and is told nothing. */
  lemma PurgedJobTellsNobody(grace: nat) returns (worlds: seq<World>, moves: seq<Move>)
    ensures IsInterleaving(grace, worlds, moves)
    ensures var w := worlds[|moves|];
            && w.waits == map[0 := Wait(1, Polled(false, false))] && w.inflight == []
            && !Unfinished(w.db, 1) && w.purged == {1}
  {
    var db, marked := OneQueued(false), OneQueued(true);
    MarkThenPurge(grace);
    moves := [Register(0, "q", 1), Subscribe(0), Poll(0), Database(PurgeQueued("q", 1))];
    worlds := [World(db, [], map[], {}),
               World(marked, [], map[0 := Wait(1, Marked)], {}),
               World(marked, [], map[0 := Wait(1, Subscribed(false))], {}),
               World(marked, [], map[0 := Wait(1, Polled(false, false))], {}),
               World(marked.(jobs := map[]), [], map[0 := Wait(1, Polled(false, false))], {1})];
    forall k | 0 <= k < 4 ensures Next(grace, worlds[k], moves[k], worlds[k + 1]) { }
  }

  lemma MarkThenPurge(grace: nat)
    ensures Inv(OneQueued(false))
    ensures forall waits: map<nat, Wait> ::
              Advance(grace, World(OneQueued(false), [], waits, {}), MarkAwaited("q", 1)) == World(OneQueued(true), [], waits, {})
    ensures forall waits: map<nat, Wait> ::
              Advance(grace, World(OneQueued(true), [], waits, {}), PurgeQueued("q", 1))
              == World(OneQueued(true).(jobs := map[]), [], waits, {1})
  {
    assert Apply(grace, OneQueued(false), MarkAwaited("q", 1)) == OneQueued(true);
    assert Apply(grace, OneQueued(true), PurgeQueued("q", 1)).jobs == map[];
  }

  // ---- The registry behind the protocol ----

  /** The registry holds one entry per registered wait, under the waiter's key and job, full exactly when the wait is. */
  ghost predicate Mirrors(entries: set<Listener.Entry>, waits: map<nat, Wait>) {
    && (forall e <- entries :: MirrorsEntry(e, waits))
    && (forall n <- waits :: waits[n].phase.Marked? || HasKey(entries, n))
  }

  predicate MirrorsEntry(e: Listener.Entry, waits: map<nat, Wait>) {
    && e.key in waits && !waits[e.key].phase.Marked?
    && waits[e.key].id == e.id && waits[e.key].phase.inbox == e.inbox.Some?
  }

  ghost predicate HasKey(entries: set<Listener.Entry>, key: nat) { exists e <- entries :: e.key == key }

  /** A move of the interleaving does to the waits what the listener's own operation does to its entries, and no
      other move touches them. */
  lemma ListenerFollows(grace: nat, w: World, move: Move, w': World, entries: set<Listener.Entry>, status: Status)
    requires Next(grace, w, move, w') && Mirrors(entries, w.waits)
    ensures match move
            case Subscribe(n) => Mirrors(entries + {Listener.Entry(w.waits[n].id, n, None)}, w'.waits)
            case Deliver => Mirrors((set e <- entries :: Listener.Received(e, w.inflight[0], status)), w'.waits)
            case Leave(n) => Mirrors((set e <- entries | e.key != n), w'.waits)
            case _ => Mirrors(entries, w'.waits)
  {
    match move
    case Subscribe(n) =>
      var more := entries + {Listener.Entry(w.waits[n].id, n, None)};
      forall k <- w'.waits | !w'.waits[k].phase.Marked? ensures HasKey(more, k) {
        if k != n {
          var e :| e in entries && e.key == k;
          assert e in more;
        } else {
          assert Listener.Entry(w.waits[n].id, n, None) in more;
        }
      }
      forall e <- more ensures MirrorsEntry(e, w'.waits) {
        if e in entries { assert MirrorsEntry(e, w.waits); }
      }
    case Deliver => DeliveryFollows(w.waits, w'.waits, entries, w.inflight[0], status);
    case Leave(n) =>
      var fewer := set e <- entries | e.key != n;
      forall k <- w'.waits | !w'.waits[k].phase.Marked? ensures HasKey(fewer, k) {
        assert HasKey(entries, k);
        var e :| e in entries && e.key == k;
        assert e in fewer;
      }
      forall e <- fewer ensures MirrorsEntry(e, w'.waits) { assert MirrorsEntry(e, w.waits); }
    case _ =>
      forall e <- entries ensures MirrorsEntry(e, w'.waits) { assert MirrorsEntry(e, w.waits); }
      forall k <- w'.waits | !w'.waits[k].phase.Marked? ensures HasKey(entries, k) { assert k in w.waits; }
  }

  lemma DeliveryFollows(waits: map<nat, Wait>, after: map<nat, Wait>, entries: set<Listener.Entry>, id: JobId, status: Status)
    requires Mirrors(entries, waits) && after == map n <- waits :: waits[n].Receive(id)
    ensures Mirrors((set e <- entries :: Listener.Received(e, id, status)), after)
  {
    var received := set e <- entries :: Listener.Received(e, id, status);
    forall k <- after | !after[k].phase.Marked? ensures HasKey(received, k) {
      var e :| e in entries && e.key == k;
      assert Listener.Received(e, id, status) in received;
    }
    forall r <- received ensures MirrorsEntry(r, after) {
      var e :| e in entries && r == Listener.Received(e, id, status);
      assert MirrorsEntry(e, waits) && after[e.key] == waits[e.key].Receive(id);
    }
  }
}
