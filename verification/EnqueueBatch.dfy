/**
 Enqueueing a batch under its dedupe locks. Without interference the batch is the same as
 enqueueing its jobs one by one; against a writer that ignores the locks it still never answers
 with a row that did not land.
 */
module EnqueueBatch {
  import opened Rows
  import opened Lifecycle
  import opened Invariants
  import opened Statements

  /** The live row behind a dedupe key, as the batch records it. */
  datatype Holder = Holder(id: JobId, name: string, resultTtl: Option<nat>, failedTtl: Option<nat>)

  /** One batch: the tables its holders are read from, and its jobs with the ids made for them. */
  datatype Enqueue = Enqueue(db: Db, queue: Queue, ids: seq<JobId>, jobs: seq<Request>)

  datatype Answer = Inserted(id: JobId) | Deduplicated(holder: Holder)

  datatype Outcome = Answers(answers: seq<Answer>) | NameClash(index: nat) | DedupeRace(index: nat) | DroppedKeyless

  function HolderOf(db: Db, id: JobId): Holder requires id in db.jobs {
    Holder(id, db.jobs[id].name, db.jobs[id].resultTtl, db.jobs[id].failedTtl)
  }

  predicate Holds(db: Db, queue: Queue, key: string, holder: Holder) {
    db.HoldsKey(holder.id, queue, key) && holder == HolderOf(db, holder.id)
  }

  function HolderFor(id: JobId, job: Request): Holder {
    Holder(id, job.name, job.resultTtl, job.failedTtl)
  }

  // ---- The reference: one enqueue after the other ----

  /** The tables after one insert: a taken key leaves them alone. */
  function AfterInsert(db: Db, queue: Queue, id: JobId, job: Request): Db {
    if db.KeyTaken(queue, job.dedupeKey) then db
    else db.(jobs := db.jobs[id := NewRow(queue, job)], issued := db.issued + {id})
  }

  /** That is what the statement does. */
  lemma InsertStatement(grace: nat, db: Db, queue: Queue, id: JobId, job: Request)
    ensures Apply(grace, db, Insert(queue, id, job)) == AfterInsert(db, queue, id, job)
    ensures Accepts(grace, db, Insert(queue, id, job)) <==> !db.KeyTaken(queue, job.dedupeKey)
  {
  }

  lemma InsertKeepsInv(db: Db, queue: Queue, id: JobId, job: Request)
    requires Inv(db) && id !in db.issued && job.Valid()
    ensures Inv(AfterInsert(db, queue, id, job))
  {
    InsertStatement(0, db, queue, id, job);
    StepKeepsInv(0, db, Insert(queue, id, job));
  }

  /** A key held after an insert was held by the same row before, or it was free and the row is the new one. */
  lemma NewKeyOrigin(db: Db, queue: Queue, id: JobId, job: Request, h: JobId, key: string)
    requires Inv(db) && id !in db.issued && job.Valid() && AfterInsert(db, queue, id, job).HoldsKey(h, queue, key)
    ensures db.HoldsKey(h, queue, key) || (h == id && job.dedupeKey == Some(key) && !db.KeyTaken(queue, Some(key)))
  {
  }

  /** The tables after enqueueing the first `n` jobs singly; an enqueue whose key is held inserts nothing. */
  ghost function Table(e: Enqueue, n: nat): Db
    requires n <= |e.jobs| == |e.ids|
  {
    if n == 0 then e.db
    else AfterInsert(Table(e, n - 1), e.queue, e.ids[n - 1], e.jobs[n - 1])
  }

  /** What a single enqueue answers: the live holder if there is one, else the id it inserted. */
  ghost function SingleAnswer(db: Db, queue: Queue, id: JobId, job: Request): Answer {
    if db.KeyTaken(queue, job.dedupeKey) then
      var holder: JobId :| db.HoldsKey(holder, queue, job.dedupeKey.value);
      Deduplicated(HolderOf(db, holder))
    else Inserted(id)
  }

  ghost function AnswerAt(e: Enqueue, i: nat): Answer
    requires i < |e.jobs| == |e.ids|
  {
    SingleAnswer(Table(e, i), e.queue, e.ids[i], e.jobs[i])
  }

  /** The answers of the first `n` single enqueues, in input order. */
  ghost function OneByOne(e: Enqueue, n: nat): seq<Answer>
    requires n <= |e.jobs| == |e.ids|
  {
    if n == 0 then [] else OneByOne(e, n - 1) + [AnswerAt(e, n - 1)]
  }

  /** Which of the first `n` jobs they insert. */
  ghost function NewJobs(e: Enqueue, n: nat): seq<nat>
    requires n <= |e.jobs| == |e.ids|
  {
    if n == 0 then [] else
    var before := NewJobs(e, n - 1);
    if AnswerAt(e, n - 1).Inserted? then before + [n - 1] else before
  }

  lemma {:induction false} OneByOneAt(e: Enqueue, n: nat, i: nat)
    requires i < n <= |e.jobs| == |e.ids|
    ensures |OneByOne(e, n)| == n
    ensures OneByOne(e, n)[i] == AnswerAt(e, i)
    decreases n
  {
    if i < n - 1 { OneByOneAt(e, n - 1, i); }
    else if n > 1 { OneByOneAt(e, n - 1, 0); }
  }

  ghost predicate Ascends(rows: seq<nat>, n: nat) {
    && (forall a, b :: 0 <= a < b < |rows| ==> rows[a] < rows[b])
    && (forall a :: 0 <= a < |rows| ==> rows[a] < n)
  }

  lemma {:induction false} NewJobsAscend(e: Enqueue, n: nat)
    requires n <= |e.jobs| == |e.ids|
    ensures Ascends(NewJobs(e, n), n)
  {
    if n > 0 { NewJobsAscend(e, n - 1); }
  }

  lemma {:induction false} NewJobsAre(e: Enqueue, n: nat, r: nat)
    requires n <= |e.jobs| == |e.ids|
    ensures r in NewJobs(e, n) <==> r < n && AnswerAt(e, r).Inserted?
  {
    if n > 0 { NewJobsAre(e, n - 1, r); }
  }

  /** The single enqueue would deduplicate against a job of another name. */
  ghost predicate Clashes(e: Enqueue, i: nat)
    requires i < |e.jobs| == |e.ids|
  {
    !SameName(AnswerAt(e, i), e.jobs[i])
  }

  /** None of the first `n` does. */
  ghost predicate NoClash(e: Enqueue, n: nat)
    requires n <= |e.jobs| == |e.ids|
  {
    n == 0 || (NoClash(e, n - 1) && !Clashes(e, n - 1))
  }

  lemma {:induction false} NoClashAt(e: Enqueue, n: nat, i: nat)
    requires i < n <= |e.jobs| == |e.ids| && NoClash(e, n)
    ensures !Clashes(e, i)
    decreases n
  {
    if i < n - 1 { NoClashAt(e, n - 1, i); }
  }

  predicate SameName(answer: Answer, job: Request) {
    answer.Deduplicated? ==> answer.holder.name == job.name
  }

  /** A validated batch with a fresh id for each job. */
  ghost predicate Ready(e: Enqueue) {
    match e case Enqueue(db, _, ids, jobs) =>
      && Inv(db) && |ids| == |jobs|
      && (forall i :: 0 <= i < |ids| ==> ids[i] !in db.issued && jobs[i].Valid())
      && (forall i, j :: 0 <= i < j < |ids| ==> ids[i] != ids[j])
  }

  lemma {:induction false} TableIsGood(e: Enqueue, n: nat)
    requires Ready(e) && n <= |e.jobs|
    ensures var t := Table(e, n);
            Inv(t) && (forall i :: n <= i < |e.ids| ==> e.ids[i] !in t.issued) && t.now == e.db.now
  {
    if n > 0 {
      TableIsGood(e, n - 1);
      InsertKeepsInv(Table(e, n - 1), e.queue, e.ids[n - 1], e.jobs[n - 1]);
    }
  }

  /** Who holds a key after one insert. */
  lemma InsertHolds(db: Db, queue: Queue, id: JobId, job: Request, key: string)
    requires Inv(db) && id !in db.issued && job.Valid()
    ensures var after := AfterInsert(db, queue, id, job);
            && (db.KeyTaken(queue, Some(key)) ==> after.KeyTaken(queue, Some(key)) && forall h :: Holds(db, queue, key, h) ==> Holds(after, queue, key, h))
            && (!db.KeyTaken(queue, Some(key)) && job.dedupeKey == Some(key) ==>
                  after.KeyTaken(queue, Some(key)) && Holds(after, queue, key, HolderFor(id, job)))
            && (!db.KeyTaken(queue, Some(key)) && job.dedupeKey != Some(key) ==> !after.KeyTaken(queue, Some(key)))
  {
    var after := AfterInsert(db, queue, id, job);
    if db.KeyTaken(queue, Some(key)) {
      var h :| h in db.jobs && db.HoldsKey(h, queue, key);
      assert after.HoldsKey(h, queue, key);
    } else if job.dedupeKey == Some(key) {
      assert after.HoldsKey(id, queue, key);
    } else if after.KeyTaken(queue, Some(key)) {
      var h :| h in after.jobs && after.HoldsKey(h, queue, key);
      NewKeyOrigin(db, queue, id, job, h, key);
      assert false;
    }
  }

  // ---- The batch ----

  /** Reads the live holders of the given keys in one go. */
  method LiveDedupeHolders(db: Db, queue: Queue, keys: set<string>) returns (holders: map<string, Holder>)
    ensures HoldersMatch(db, queue, keys, holders) && holders.Keys <= keys
  {
    holders := map[];
    var left := keys;
    while left != {}
      invariant left <= keys
      invariant forall key :: key in holders <==> key in keys - left && db.KeyTaken(queue, Some(key))
      invariant forall key <- holders :: Holds(db, queue, key, holders[key])
      decreases left
    {
      var key :| key in left;
      left := left - {key};
      if db.KeyTaken(queue, Some(key)) {
        var id :| id in db.jobs && db.HoldsKey(id, queue, key);
        holders := holders[key := HolderOf(db, id)];
      }
    }
  }

  function KeysOf(jobs: seq<Request>): set<string> {
    set i | 0 <= i < |jobs| && jobs[i].dedupeKey.Some? :: jobs[i].dedupeKey.value
  }

  ghost predicate InBatch(rows: seq<nat>, ids: seq<JobId>, jobs: seq<Request>) {
    |ids| == |jobs| && forall a :: 0 <= a < |rows| ==> rows[a] < |jobs|
  }

  /** The insert statement over the chosen jobs, `ON CONFLICT DO NOTHING` row by row. */
  ghost function InsertFold(e: Enqueue, rows: seq<nat>): Db {
    if rows == [] || !InBatch(rows, e.ids, e.jobs) then e.db else
    var last := rows[|rows| - 1];
    AfterInsert(InsertFold(e, rows[..|rows| - 1]), e.queue, e.ids[last], e.jobs[last])
  }

  /** None of those rows conflicts. */
  ghost predicate AllLand(e: Enqueue, rows: seq<nat>) {
    if rows == [] || !InBatch(rows, e.ids, e.jobs) then true else
    var last, rest := rows[|rows| - 1], rows[..|rows| - 1];
    && AllLand(e, rest)
    && !InsertFold(e, rest).KeyTaken(e.queue, e.jobs[last].dedupeKey)
  }

  lemma FoldGrows(e: Enqueue, rows: seq<nat>, n: nat)
    requires InBatch(rows, e.ids, e.jobs) && n < |e.jobs|
    ensures var before := InsertFold(e, rows);
            && InsertFold(e, rows + [n]) == AfterInsert(before, e.queue, e.ids[n], e.jobs[n])
            && (AllLand(e, rows + [n]) <==>
                  AllLand(e, rows) && !before.KeyTaken(e.queue, e.jobs[n].dedupeKey))
  {
    assert (rows + [n])[..|rows|] == rows;
  }

  /** The decision for one job from the recorded holders is the single enqueue's answer. */
  lemma DecisionIsSingle(db: Db, queue: Queue, id: JobId, job: Request, holders: map<string, Holder>)
    requires Inv(db)
    requires job.dedupeKey.Some? ==> (job.dedupeKey.value in holders <==> db.KeyTaken(queue, job.dedupeKey))
    requires forall key <- holders :: Holds(db, queue, key, holders[key])
    ensures SingleAnswer(db, queue, id, job) ==
            if job.dedupeKey.Some? && job.dedupeKey.value in holders then Deduplicated(holders[job.dedupeKey.value]) else Inserted(id)
  {
  }

  /** The holder map once the job at `n` is decided. */
  function Recorded(holders: map<string, Holder>, id: JobId, job: Request): map<string, Holder> {
    if job.dedupeKey.None? || job.dedupeKey.value in holders then holders
    else holders[job.dedupeKey.value := HolderFor(id, job)]
  }

  ghost predicate HoldersMatch(db: Db, queue: Queue, keys: set<string>, holders: map<string, Holder>) {
    && (forall key <- keys :: key in holders <==> db.KeyTaken(queue, Some(key)))
    && (forall key <- holders :: Holds(db, queue, key, holders[key]))
  }

  lemma RecordedMatches(db: Db, queue: Queue, id: JobId, job: Request, keys: set<string>, holders: map<string, Holder>)
    requires Inv(db) && id !in db.issued && job.Valid() && HoldersMatch(db, queue, keys, holders)
    requires job.dedupeKey.Some? ==> job.dedupeKey.value in keys
    ensures HoldersMatch(AfterInsert(db, queue, id, job), queue, keys, Recorded(holders, id, job))
  {
    var after, more := AfterInsert(db, queue, id, job), Recorded(holders, id, job);
    forall key <- keys ensures key in more <==> after.KeyTaken(queue, Some(key)) { InsertHolds(db, queue, id, job, key); }
    forall key <- more ensures Holds(after, queue, key, more[key]) { InsertHolds(db, queue, id, job, key); }
  }

  /** Inserting just the new jobs among the first `n` gives the tables of the single enqueues, and none conflicts. */
  ghost predicate Folds(e: Enqueue, n: nat)
    requires n <= |e.jobs| == |e.ids|
  {
    match NewJobs(e, n)
    case rows => InBatch(rows, e.ids, e.jobs) && AllLand(e, rows) && InsertFold(e, rows) == Table(e, n)
  }

  lemma NewJobFolds(e: Enqueue, n: nat)
    requires n < |e.jobs| == |e.ids| && Folds(e, n) && AnswerAt(e, n).Inserted?
    ensures Folds(e, n + 1)
  {
    var rows := NewJobs(e, n);
    FoldGrows(e, rows, n);
    assert NewJobs(e, n + 1) == rows + [n];
  }

  lemma DuplicateFolds(e: Enqueue, n: nat)
    requires n < |e.jobs| == |e.ids| && Folds(e, n) && AnswerAt(e, n).Deduplicated?
    ensures Folds(e, n + 1)
  {
    DuplicateIsNothing(e, n);
    assert NewJobs(e, n + 1) == NewJobs(e, n);
  }

  lemma {:induction false} FoldIsTable(e: Enqueue, n: nat)
    requires n <= |e.jobs| == |e.ids|
    ensures Folds(e, n)
  {
    if n > 0 {
      FoldIsTable(e, n - 1);
      if AnswerAt(e, n - 1).Inserted? { NewJobFolds(e, n - 1); } else { DuplicateFolds(e, n - 1); }
    }
  }

  lemma DuplicateIsNothing(e: Enqueue, n: nat)
    requires n < |e.jobs| == |e.ids| && AnswerAt(e, n).Deduplicated?
    ensures Table(e, n + 1) == Table(e, n)
  {
  }

  function Decide(holders: map<string, Holder>, id: JobId, job: Request): Answer {
    if job.dedupeKey.Some? && job.dedupeKey.value in holders then Deduplicated(holders[job.dedupeKey.value]) else Inserted(id)
  }

  /** One round of the loop: the recorded holders decide as the single enqueue would, and stay right. */
  lemma HoldersStep(e: Enqueue, n: nat, holders: map<string, Holder>)
    requires Ready(e) && n < |e.jobs|
    requires HoldersMatch(Table(e, n), e.queue, KeysOf(e.jobs), holders)
    ensures Decide(holders, e.ids[n], e.jobs[n]) == AnswerAt(e, n)
    ensures HoldersMatch(Table(e, n + 1), e.queue, KeysOf(e.jobs), Recorded(holders, e.ids[n], e.jobs[n]))
  {
    var t, job := Table(e, n), e.jobs[n];
    TableIsGood(e, n);
    if job.dedupeKey.Some? { assert job.dedupeKey.value in KeysOf(e.jobs); }
    DecisionIsSingle(t, e.queue, e.ids[n], job, holders);
    RecordedMatches(t, e.queue, e.ids[n], job, KeysOf(e.jobs), holders);
  }

  /** The loop's variables: the recorded holders, the answers so far and the jobs to insert. */
  datatype Progress = Progress(holders: map<string, Holder>, answers: seq<Answer>, rows: seq<nat>) {
    function Add(id: JobId, job: Request, n: nat): Progress {
      var answer := Decide(holders, id, job);
      Progress(Recorded(holders, id, job), answers + [answer], if answer.Inserted? then rows + [n] else rows)
    }
  }

  ghost predicate Right(e: Enqueue, n: nat, p: Progress) {
    match p case Progress(holders, answers, rows) =>
      && n <= |e.jobs| == |e.ids|
      && HoldersMatch(Table(e, n), e.queue, KeysOf(e.jobs), holders)
      && answers == OneByOne(e, n)
      && rows == NewJobs(e, n)
      && NoClash(e, n)
  }

  lemma RoundIsRight(e: Enqueue, n: nat, p: Progress)
    requires Ready(e) && n < |e.jobs| && Right(e, n, p)
    ensures if SameName(Decide(p.holders, e.ids[n], e.jobs[n]), e.jobs[n])
            then Right(e, n + 1, p.Add(e.ids[n], e.jobs[n], n)) else Clashes(e, n)
  {
    HoldersStep(e, n, p.holders);
  }

  /** The decision loop over the batch: the answers of the single enqueues and the jobs left to insert, or the first
      job that would deduplicate against another name. */
  method Plan(e: Enqueue) returns (clash: Option<nat>, p: Progress)
    requires Ready(e)
    ensures clash.Some? ==> clash.value < |e.jobs| && Clashes(e, clash.value)
    ensures clash.None? ==> Right(e, |e.jobs|, p)
  {
    var holders := LiveDedupeHolders(e.db, e.queue, KeysOf(e.jobs));
    p := Progress(holders, [], []);
    clash := None;
    for n := 0 to |e.jobs|
      invariant Right(e, n, p)
    {
      RoundIsRight(e, n, p);
      if !SameName(Decide(p.holders, e.ids[n], e.jobs[n]), e.jobs[n]) { return Some(n), p; }
      p := p.Add(e.ids[n], e.jobs[n], n);
    }
  }

  /** A key first claimed by job `r` of the batch stays with it. */
  lemma {:induction false} KeyStaysHeld(e: Enqueue, r: nat, i: nat)
    requires Ready(e) && r < i <= |e.jobs| && e.jobs[r].dedupeKey.Some?
    requires AnswerAt(e, r).Inserted?
    ensures Table(e, i).KeyTaken(e.queue, e.jobs[r].dedupeKey)
    ensures Holds(Table(e, i), e.queue, e.jobs[r].dedupeKey.value, HolderFor(e.ids[r], e.jobs[r]))
    decreases i
  {
    TableIsGood(e, i - 1);
    if i > r + 1 { KeyStaysHeld(e, r, i - 1); }
    InsertHolds(Table(e, i - 1), e.queue, e.ids[i - 1], e.jobs[i - 1], e.jobs[r].dedupeKey.value);
  }

  /** If job `r` is inserted with a key, every other job of the batch with that key comes later and is answered with it. */
  lemma SameKey(e: Enqueue, r: nat, i: nat)
    requires Ready(e) && r < |e.jobs| && i < |e.jobs| && i != r
    requires e.jobs[r].dedupeKey.Some? && e.jobs[i].dedupeKey == e.jobs[r].dedupeKey
    requires AnswerAt(e, r).Inserted?
    ensures r < i && AnswerAt(e, i) == Deduplicated(HolderFor(e.ids[r], e.jobs[r]))
  {
    if r < i {
      KeyStaysHeld(e, r, i);
      TableIsGood(e, i);
    } else {
      TableIsGood(e, i);
      InsertHolds(Table(e, i), e.queue, e.ids[i], e.jobs[i], e.jobs[r].dedupeKey.value);
      StaysTaken(e, i + 1, r, e.jobs[r].dedupeKey.value);
    }
  }

  lemma {:induction false} StaysTaken(e: Enqueue, i: nat, j: nat, key: string)
    requires Ready(e) && i <= j <= |e.jobs| && Table(e, i).KeyTaken(e.queue, Some(key))
    ensures Table(e, j).KeyTaken(e.queue, Some(key))
    decreases j
  {
    if i < j {
      StaysTaken(e, i, j - 1, key);
      TableIsGood(e, j - 1);
      InsertHolds(Table(e, j - 1), e.queue, e.ids[j - 1], e.jobs[j - 1], key);
    }
  }

  /** A holder a job is answered with was live in the tables read, or is an earlier inserted job of the batch. */
  lemma {:induction false} HolderOrigin(e: Enqueue, i: nat, key: string, h: Holder)
      returns (r: nat)
    requires Ready(e) && i <= |e.jobs| && Holds(Table(e, i), e.queue, key, h)
    ensures Holds(e.db, e.queue, key, h)
            || (r < i && e.jobs[r].dedupeKey == Some(key) && AnswerAt(e, r).Inserted? && h == HolderFor(e.ids[r], e.jobs[r]))
    decreases i
  {
    r := 0;
    if i > 0 {
      var t := Table(e, i - 1);
      TableIsGood(e, i - 1);
      NewKeyOrigin(t, e.queue, e.ids[i - 1], e.jobs[i - 1], h.id, key);
      if t.HoldsKey(h.id, e.queue, key) { r := HolderOrigin(e, i - 1, key, h); } else { r := i - 1; }
    }
  }

  /** A clash in plain terms: a live row of the queue, or an earlier job of the batch, has the job's key and another name. */
  ghost predicate NameConflict(e: Enqueue, i: nat)
    requires i < |e.jobs| == |e.ids|
  {
    && e.jobs[i].dedupeKey.Some?
    && ((exists id <- e.db.jobs :: e.db.HoldsKey(id, e.queue, e.jobs[i].dedupeKey.value) && e.db.jobs[id].name != e.jobs[i].name)
        || (exists r: nat :: r < i && e.jobs[r].dedupeKey == e.jobs[i].dedupeKey && e.jobs[r].name != e.jobs[i].name))
  }

  lemma ClashIsAConflict(e: Enqueue, i: nat)
    requires Ready(e) && i < |e.jobs| && Clashes(e, i)
    ensures NameConflict(e, i) && !NoClash(e, |e.jobs|)
  {
    if NoClash(e, |e.jobs|) { NoClashAt(e, |e.jobs|, i); }
    TableIsGood(e, i);
    var holder := AnswerAt(e, i).holder;
    assert Holds(Table(e, i), e.queue, e.jobs[i].dedupeKey.value, holder);
    var r := HolderOrigin(e, i, e.jobs[i].dedupeKey.value, holder);
  }

  predicate LandedOrKeyed(db: Db, queue: Queue, id: JobId, job: Request, inserted: set<JobId>) {
    if id in inserted then id in db.jobs && db.jobs[id] == NewRow(queue, job) else job.dedupeKey.Some?
  }

  lemma InsertEffect(db: Db, queue: Queue, id: JobId, job: Request)
    requires Inv(db) && id !in db.issued
    ensures var after := AfterInsert(db, queue, id, job);
            && after.issued <= db.issued + {id}
            && (forall k <- db.jobs :: k in after.jobs && after.jobs[k] == db.jobs[k])
            && (if !db.KeyTaken(queue, job.dedupeKey) then id in after.jobs && after.jobs[id] == NewRow(queue, job) else job.dedupeKey.Some?)
  {
  }

  /** Halfway through the insert: what the first `m` chosen jobs came to, and that the others are still to come. */
  ghost predicate Landing(e: Enqueue, rows: seq<nat>, m: nat, db: Db, inserted: set<JobId>) {
    && InBatch(rows, e.ids, e.jobs) && m <= |rows| && Inv(db)
    && db == InsertFold(e, rows[..m])
    && (forall a :: m <= a < |rows| ==> e.ids[rows[a]] !in db.issued && e.ids[rows[a]] !in inserted)
    && (forall a :: 0 <= a < m ==> LandedOrKeyed(db, e.queue, e.ids[rows[a]], e.jobs[rows[a]], inserted))
    && (AllLand(e, rows[..m]) ==> forall a :: 0 <= a < m ==> e.ids[rows[a]] in inserted)
  }

  lemma InsertRound(e: Enqueue, rows: seq<nat>, m: nat, db: Db, inserted: set<JobId>)
    requires Ready(e) && Ascends(rows, |e.jobs|) && m < |rows| && Landing(e, rows, m, db, inserted)
    ensures var id, job := e.ids[rows[m]], e.jobs[rows[m]];
            && id !in db.issued && job.Valid()
            && Landing(e, rows, m + 1, AfterInsert(db, e.queue, id, job),
                       if db.KeyTaken(e.queue, job.dedupeKey) then inserted else inserted + {id})
  {
    var id, job := e.ids[rows[m]], e.jobs[rows[m]];
    assert rows[..m + 1] == rows[..m] + [rows[m]];
    FoldGrows(e, rows[..m], rows[m]);
    InsertKeepsInv(db, e.queue, id, job);
    RowsRound(e, rows, m, db, inserted);
  }

  /** The same, row by row. */
  lemma RowsRound(e: Enqueue, rows: seq<nat>, m: nat, db: Db, inserted: set<JobId>)
    requires Ready(e) && Ascends(rows, |e.jobs|) && m < |rows| && Inv(db)
    requires forall a :: m <= a < |rows| ==> e.ids[rows[a]] !in db.issued && e.ids[rows[a]] !in inserted
    requires forall a :: 0 <= a < m ==> LandedOrKeyed(db, e.queue, e.ids[rows[a]], e.jobs[rows[a]], inserted)
    ensures var id, job := e.ids[rows[m]], e.jobs[rows[m]];
            var after := AfterInsert(db, e.queue, id, job);
            var more := if db.KeyTaken(e.queue, job.dedupeKey) then inserted else inserted + {id};
            && (forall a :: m < a < |rows| ==> e.ids[rows[a]] !in after.issued && e.ids[rows[a]] !in more)
            && (forall a :: 0 <= a <= m ==> LandedOrKeyed(after, e.queue, e.ids[rows[a]], e.jobs[rows[a]], more))
  {
    assert forall a :: 0 <= a < |rows| && a != m ==> e.ids[rows[a]] != e.ids[rows[m]];
    InsertEffect(db, e.queue, e.ids[rows[m]], e.jobs[rows[m]]);
  }

  /** Inserts the chosen jobs and reports which of them landed. */
  method InsertJobs(database: Database, ids: seq<JobId>, jobs: seq<Request>, rows: seq<nat>) returns (inserted: set<JobId>)
    requires Ready(Enqueue(database.db, database.queue, ids, jobs)) && Ascends(rows, |jobs|)
    modifies database`db
    ensures Landing(Enqueue(old(database.db), database.queue, ids, jobs), rows, |rows|, database.db, inserted)
  {
    inserted := {};
    ghost var e := Enqueue(database.db, database.queue, ids, jobs);
    for m := 0 to |rows|
      invariant Landing(e, rows, m, database.db, inserted)
    {
      InsertRound(e, rows, m, database.db, inserted);
      InsertStatement(database.grace, database.db, database.queue, ids[rows[m]], jobs[rows[m]]);
      var landed := database.Execute(Insert(database.queue, ids[rows[m]], jobs[rows[m]]));
      if landed { inserted := inserted + {ids[rows[m]]}; }
    }
  }

  // ---- What an answer may name ----

  /** Where a holder an answer names was live: in the tables the batch read, among the rows the batch itself
      inserted, or in the tables a re-read saw. */
  ghost predicate Genuine(e: Enqueue, after: Db, inserted: set<JobId>, rereads: nat -> Db, key: string, h: Holder) {
    || Holds(e.db, e.queue, key, h)
    || (h.id in inserted && Holds(after, e.queue, key, h))
    || (exists r :: Holds(rereads(r), e.queue, key, h))
  }

  /** The answer to job `i` names a row that landed, under the job's own key and name. */
  ghost predicate Sound(e: Enqueue, after: Db, inserted: set<JobId>, rereads: nat -> Db, answer: Answer, i: nat)
    requires i < |e.jobs| == |e.ids|
  {
    match answer
    case Inserted(id) => id == e.ids[i] && id in inserted && id in after.jobs && after.jobs[id] == NewRow(e.queue, e.jobs[i])
    case Deduplicated(h) => e.jobs[i].dedupeKey.Some? && h.name == e.jobs[i].name
                            && Genuine(e, after, inserted, rereads, e.jobs[i].dedupeKey.value, h)
  }

  /** The answers as the rewrite loop leaves them. */
  function Replaced(answer: Answer, job: Request, replacements: map<string, Holder>): Answer {
    if job.dedupeKey.Some? && job.dedupeKey.value in replacements then Deduplicated(replacements[job.dedupeKey.value]) else answer
  }

  /** `replacements` names, for every planned row that did not land, the row that took its key. */
  ghost predicate Repaired(e: Enqueue, rows: seq<nat>, inserted: set<JobId>, rereads: nat -> Db, replacements: map<string, Holder>)
    requires InBatch(rows, e.ids, e.jobs)
  {
    && (forall a :: 0 <= a < |rows| && e.ids[rows[a]] !in inserted ==>
          e.jobs[rows[a]].dedupeKey.Some? && e.jobs[rows[a]].dedupeKey.value in replacements)
    && (forall key <- replacements :: ReplacedBy(e, rows, rereads, key, replacements[key]))
  }

  ghost predicate ReplacedBy(e: Enqueue, rows: seq<nat>, rereads: nat -> Db, key: string, h: Holder)
    requires InBatch(rows, e.ids, e.jobs)
  {
    exists a :: 0 <= a < |rows| && e.jobs[rows[a]].dedupeKey == Some(key) && h.name == e.jobs[rows[a]].name
                && Holds(rereads(rows[a]), e.queue, key, h)
  }

  /** The heart of the race argument, for one job: after the rewrite its answer is sound. */
  lemma AnswerIsSound(e: Enqueue, after: Db, rows: seq<nat>, inserted: set<JobId>, rereads: nat -> Db,
                      replacements: map<string, Holder>, i: nat)
    requires Ready(e) && i < |e.jobs| && rows == NewJobs(e, |e.jobs|) && NoClash(e, |e.jobs|)
    requires InBatch(rows, e.ids, e.jobs) && Repaired(e, rows, inserted, rereads, replacements)
    requires forall a :: 0 <= a < |rows| ==> LandedOrKeyed(after, e.queue, e.ids[rows[a]], e.jobs[rows[a]], inserted)
    ensures Sound(e, after, inserted, rereads, Replaced(AnswerAt(e, i), e.jobs[i], replacements), i)
  {
    var key := e.jobs[i].dedupeKey;
    NewJobsAre(e, |e.jobs|, i);
    NoClashAt(e, |e.jobs|, i);
    if key.Some? && key.value in replacements {
      var a :| 0 <= a < |rows| && e.jobs[rows[a]].dedupeKey == key && replacements[key.value].name == e.jobs[rows[a]].name
               && Holds(rereads(rows[a]), e.queue, key.value, replacements[key.value]);
      NewJobsAre(e, |e.jobs|, rows[a]);
      if rows[a] != i { SameKey(e, rows[a], i); }
    } else if AnswerAt(e, i).Inserted? {
      var a :| 0 <= a < |rows| && rows[a] == i;
    } else {
      TableIsGood(e, i);
      var r := HolderOrigin(e, i, key.value, AnswerAt(e, i).holder);
      if !Holds(e.db, e.queue, key.value, AnswerAt(e, i).holder) {
        NewJobsAre(e, |e.jobs|, r);
        var a :| 0 <= a < |rows| && rows[a] == r;
        assert Holds(after, e.queue, key.value, HolderFor(e.ids[r], e.jobs[r]));
      }
    }
  }

  /** Why a batch may be refused: a name conflict among what was read, or a job whose insert lost its key to a row that
      the re-read finds under another name or does not find any more. */
  ghost predicate Justified(e: Enqueue, inserted: set<JobId>, rereads: nat -> Db, outcome: Outcome)
    requires |e.jobs| == |e.ids|
  {
    match outcome
    case Answers(_) => true
    case NameClash(i) => i < |e.jobs| && (NameConflict(e, i) || (Lost(e, inserted, i) && AnotherName(e, rereads(i), i)))
    case DedupeRace(i) => i < |e.jobs| && Lost(e, inserted, i) && !rereads(i).KeyTaken(e.queue, e.jobs[i].dedupeKey)
    case DroppedKeyless => false
  }

  predicate Lost(e: Enqueue, inserted: set<JobId>, i: nat) requires i < |e.jobs| == |e.ids| {
    e.ids[i] !in inserted && e.jobs[i].dedupeKey.Some?
  }

  ghost predicate AnotherName(e: Enqueue, reread: Db, i: nat) requires i < |e.jobs| && e.jobs[i].dedupeKey.Some? {
    exists id <- reread.jobs :: reread.HoldsKey(id, e.queue, e.jobs[i].dedupeKey.value) && reread.jobs[id].name != e.jobs[i].name
  }

  /** The re-read loop over the planned rows that did not land. */
  method Repair(e: Enqueue, rows: seq<nat>, inserted: set<JobId>, rereads: nat -> Db)
      returns (failure: Option<Outcome>, replacements: map<string, Holder>)
    requires InBatch(rows, e.ids, e.jobs)
    ensures failure.Some? ==> !failure.value.Answers?
    ensures failure.Some? && failure != Some(DroppedKeyless) ==> Justified(e, inserted, rereads, failure.value)
    ensures failure == Some(DroppedKeyless) ==> exists a :: 0 <= a < |rows| && e.ids[rows[a]] !in inserted && e.jobs[rows[a]].dedupeKey.None?
    ensures failure.None? ==> Repaired(e, rows, inserted, rereads, replacements)
  {
    replacements := map[];
    failure := None;
    for m := 0 to |rows|
      invariant InBatch(rows[..m], e.ids, e.jobs) && Repaired(e, rows[..m], inserted, rereads, replacements)
    {
      var r := rows[m];
      assert rows[..m + 1] == rows[..m] + [r];
      ghost var before := replacements;
      if e.ids[r] !in inserted {
        var key := e.jobs[r].dedupeKey;
        if key.None? { failure := Some(DroppedKeyless); return; }
        if !rereads(r).KeyTaken(e.queue, key) { failure := Some(DedupeRace(r)); return; }
        var id: JobId :| id in rereads(r).jobs && rereads(r).HoldsKey(id, e.queue, key.value);
        var holder := HolderOf(rereads(r), id);
        if holder.name != e.jobs[r].name { failure := Some(NameClash(r)); return; }
        replacements := replacements[key.value := holder];
      }
      forall key <- replacements ensures ReplacedBy(e, rows[..m + 1], rereads, key, replacements[key]) {
        if key in before && before[key] == replacements[key] {
          var a :| 0 <= a < m && e.jobs[rows[..m][a]].dedupeKey == Some(key) && before[key].name == e.jobs[rows[..m][a]].name
                   && Holds(rereads(rows[..m][a]), e.queue, key, before[key]);
          assert rows[..m + 1][a] == rows[..m][a];
        } else {
          assert rows[..m + 1][m] == r;
        }
      }
    }
    assert rows[..|rows|] == rows;
  }

  /** The rewrite loop over the answers. */
  method Rewrite(e: Enqueue, answers: seq<Answer>, replacements: map<string, Holder>) returns (rewritten: seq<Answer>)
    requires |answers| == |e.jobs|
    ensures |rewritten| == |answers|
    ensures forall i :: 0 <= i < |answers| ==> rewritten[i] == Replaced(answers[i], e.jobs[i], replacements)
  {
    rewritten := answers;
    for i := 0 to |answers|
      invariant |rewritten| == |answers|
      invariant forall j :: 0 <= j < i ==> rewritten[j] == Replaced(answers[j], e.jobs[j], replacements)
      invariant forall j :: i <= j < |answers| ==> rewritten[j] == answers[j]
    {
      rewritten := rewritten[i := Replaced(rewritten[i], e.jobs[i], replacements)];
    }
  }

  /** Every answer of a batch whose rows were all inserted, or whose missing rows were all replaced. */
  lemma AllSound(e: Enqueue, after: Db, p: Progress, inserted: set<JobId>, rereads: nat -> Db,
                 replacements: map<string, Holder>, answers: seq<Answer>)
    requires Ready(e) && Right(e, |e.jobs|, p) && InBatch(p.rows, e.ids, e.jobs)
    requires Repaired(e, p.rows, inserted, rereads, replacements)
    requires forall a :: 0 <= a < |p.rows| ==> LandedOrKeyed(after, e.queue, e.ids[p.rows[a]], e.jobs[p.rows[a]], inserted)
    requires |answers| == |p.answers| == |e.jobs|
    requires forall i :: 0 <= i < |answers| ==> answers[i] == Replaced(p.answers[i], e.jobs[i], replacements)
    ensures forall i :: 0 <= i < |answers| ==> Sound(e, after, inserted, rereads, answers[i], i)
  {
    forall i | 0 <= i < |answers| ensures Sound(e, after, inserted, rereads, answers[i], i) {
      OneByOneAt(e, |e.jobs|, i);
      AnswerIsSound(e, after, p.rows, inserted, rereads, replacements, i);
    }
  }

  /** A keyed batch in its transaction. `foreign` are the tables as the insert finds them, after whatever a writer
      that ignores the locks committed since the holders were read; `rereads(r)` what the re-read for job `r` sees. */
  method EnqueueAll(database: Database, ids: seq<JobId>, jobs: seq<Request>, foreign: Db, rereads: nat -> Db)
      returns (outcome: Outcome, inserted: set<JobId>)
    requires Ready(Enqueue(database.db, database.queue, ids, jobs))
    requires Ready(Enqueue(foreign, database.queue, ids, jobs))
    modifies database`db
    ensures Inv(database.db) && outcome != DroppedKeyless
    // Whatever the other writer did, an accepted batch answers only with rows that landed.
    ensures outcome.Answers? ==>
              var e := Enqueue(old(database.db), database.queue, ids, jobs);
              |outcome.answers| == |jobs|
              && forall i :: 0 <= i < |jobs| ==> Sound(e, database.db, inserted, rereads, outcome.answers[i], i)
    // A refused batch leaves nothing behind.
    ensures !outcome.Answers? ==> database.db == foreign
    ensures Justified(Enqueue(old(database.db), database.queue, ids, jobs), inserted, rereads, outcome)
    // Without interference the batch is its single enqueues, and it is refused exactly when one of them would clash.
    ensures foreign == old(database.db) ==>
              var e := Enqueue(old(database.db), database.queue, ids, jobs);
              if NoClash(e, |jobs|) then outcome == Answers(OneByOne(e, |jobs|)) && database.db == Table(e, |jobs|)
              else outcome.NameClash? && outcome.index < |jobs| && Clashes(e, outcome.index) && NameConflict(e, outcome.index)
  {
    var e := Enqueue(database.db, database.queue, ids, jobs);
    inserted := {};
    var clash, p := Plan(e);
    database.db := foreign;
    if clash.Some? {
      ClashIsAConflict(e, clash.value);
      return NameClash(clash.value), inserted;
    }
    NewJobsAscend(e, |jobs|);
    FoldIsTable(e, |jobs|);
    inserted := InsertJobs(database, ids, jobs, p.rows);
    assert p.rows[..|p.rows|] == p.rows;
    if |jobs| > 0 { OneByOneAt(e, |jobs|, 0); }
    if forall a :: 0 <= a < |p.rows| ==> ids[p.rows[a]] in inserted {
      outcome := Answers(p.answers);
      AllSound(e, database.db, p, inserted, rereads, map[], p.answers);
    } else {
      var failure, replacements := Repair(e, p.rows, inserted, rereads);
      if failure.Some? {
        database.db := foreign;
        return failure.value, inserted;
      }
      var rewritten := Rewrite(e, p.answers, replacements);
      outcome := Answers(rewritten);
      AllSound(e, database.db, p, inserted, rereads, replacements, rewritten);
    }
  }
}
