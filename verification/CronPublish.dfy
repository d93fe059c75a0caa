/**
 Publishing cron occurrences: the misfire decision, the transaction that claims an occurrence and
 advances the durable cursor, and what any number of schedulers can publish between them.
 Times are microseconds; the searches of `CronSearch` work on whole seconds.
 */
module CronPublish {
  import opened Rows
  import opened CronSearch

  const SECOND: int := 1_000_000

  /** A schedule of whole seconds, seen in microseconds. */
  function Fine(s: Schedule): Schedule { Schedule(t => t % SECOND == 0 && s.fires(t / SECOND)) }

  /** Flooring a clock reading to its second before searching loses nothing: the next occurrence after the floored
      second is the next after the reading itself, and likewise backwards. */
  lemma FlooringIsHarmless(s: Schedule, t: int, n: int)
    ensures IsNext(s, t / SECOND, n) ==> IsNext(Fine(s), t, n * SECOND)
    ensures IsPrevious(s, t / SECOND, n) ==> IsPrevious(Fine(s), t, n * SECOND)
  {
    assert n * SECOND / SECOND == n && n * SECOND % SECOND == 0;
    if IsNext(s, t / SECOND, n) {
      forall u | t < u <= n * SECOND - 1 ensures !Fine(s).fires(u) {
        if u % SECOND == 0 { assert t / SECOND < u / SECOND <= n - 1; }
      }
    }
    if IsPrevious(s, t / SECOND, n) {
      forall u | n * SECOND < u <= t ensures !Fine(s).fires(u) {
        if u % SECOND == 0 { assert n < u / SECOND <= t / SECOND; }
      }
    }
  }

  /** An explicit grace is validated non-zero. */
  datatype Policy = Skip(grace: Option<nat>) | FireOnce {
    predicate Valid() { Skip? && grace.Some? ==> grace.value > 0 }
  }

  /** `publication_deadline`. */
  function Deadline(policy: Policy, occurrence: int, successor: int): int {
    var grace := match policy
      case Skip(Some(grace)) => grace
      case Skip(None) => Max((successor - occurrence) / 5, SECOND)
      case FireOnce => successor - occurrence;
    Min(successor, occurrence + grace)
  }

  /** The last microsecond up to which the backward search is exact. */
  const HORIZON: int := SEARCHABLE * SECOND + SECOND - 1

  /** Whether `occurrence` may still be published at `t`: never once its successor is due, and before that under
      `FireOnce` always, under `Skip` while its grace lasts, by default one fifth of the period and at least a second. */
  predicate StillOpen(policy: Policy, occurrence: int, successor: int, t: int) {
    && t < successor
    && match policy
       case FireOnce => true
       case Skip(Some(grace)) => t - occurrence < grace
       case Skip(None) => t - occurrence < SECOND || 5 * (t - occurrence + 1) <= successor - occurrence
  }

  lemma DeadlineMeans(policy: Policy, occurrence: int, successor: int, t: int)
    ensures t < Deadline(policy, occurrence, successor) <==> StillOpen(policy, occurrence, successor, t)
  {
  }

  /** A registered cron: its schedule and the two searches. Either may fail. The forward one never lies; the backward
      one may past the horizon, but then the forward search from its answer finds nothing up to the reading either. */
  datatype Entry = Entry(s: Schedule, next: int -> Option<int>, previous: int -> Option<int>) {
    ghost predicate Valid() {
      && (forall t :: next(t).Some? ==> IsNext(s, t, next(t).value))
      && (forall t :: previous(t).Some? ==> Recent(t, previous(t).value))
    }

    ghost predicate Recent(t: int, p: int) {
      s.fires(p) && p <= t && Beyond(next(p), t) && (t <= HORIZON ==> IsPrevious(s, t, p))
    }
  }

  predicate Representable(second: int) { MIN_SECOND <= second <= MAX_SECOND }

  function Micros(second: Option<int>): Option<int> { if second.None? then None else Some(second.value * SECOND) }

  /** The entry made of the two searches over one lookup, behind the flooring of their argument. */
  function Searches(s: Schedule, find: int -> Option<int>, previous: int -> Option<int>): Entry {
    Entry(Fine(s),
          t => if Representable(t / SECOND) then Micros(NextAt(find, t / SECOND)) else None,
          t => if Representable(t / SECOND) then Micros(previous(t / SECOND)) else None)
  }

  /** What the searches prove of themselves is all that scheduling needs. */
  lemma SearchesAreValid(s: Schedule, find: int -> Option<int>, previous: int -> Option<int>)
    requires FiveField(s) && IsOracle(s, find)
    requires forall now :: Representable(now) ==> PreviousAnswer(s, find, now, previous(now))
    ensures Searches(s, find, previous).Valid()
  {
    var entry := Searches(s, find, previous);
    forall t | entry.next(t).Some? ensures IsNext(entry.s, t, entry.next(t).value) {
      NextFromIsNext(s, find, t / SECOND, t / SECOND, Limit(t / SECOND));
      FlooringIsHarmless(s, t, NextAt(find, t / SECOND).value);
    }
    forall t | entry.previous(t).Some? ensures entry.Recent(t, entry.previous(t).value) {
      var now := t / SECOND;
      var p := previous(now).value;
      assert PreviousAnswer(s, find, now, previous(now));
      assert p * SECOND / SECOND == p && p * SECOND % SECOND == 0;
      FlooringIsHarmless(s, t, p);
    }
  }

  /** Which occurrence is up, its successor, and whether to publish it. */
  datatype Choice = Choice(occurrence: int, successor: int, publish: bool)

  /** `skip_catch_up`; a failed search fails the whole call. */
  function SkipCatchUp(entry: Entry, policy: Policy, stored: int, current: int): Option<Choice> {
    var successor := entry.next(stored);
    if successor.None? then None
    else if current < Deadline(policy, stored, successor.value) then Some(Choice(stored, successor.value, true))
    else
      var recent := entry.previous(current);
      if recent.None? then None
      else if recent.value <= stored then Some(Choice(stored, successor.value, false))
      else
        var after := entry.next(recent.value);
        if after.None? then None
        else if current < Deadline(policy, recent.value, after.value) then Some(Choice(recent.value, after.value, true))
        else Some(Choice(stored, successor.value, false))
  }

  function Choose(entry: Entry, policy: Policy, stored: int, time: int): Option<Choice> {
    if policy.Skip? then SkipCatchUp(entry, policy, stored, time)
    else
      var occurrence := entry.previous(time);
      if occurrence.None? then None else
      var successor := entry.next(occurrence.value);
      if successor.None? then None else Some(Choice(occurrence.value, successor.value, true))
  }

  /** The decision does not depend on how stale the cursor is: it publishes only the most recent occurrence, inside its
      own deadline, and up to the horizon exactly when that occurrence still is inside it. */
  lemma SkipCatchUpIsCursorFree(entry: Entry, policy: Policy, stored: int, current: int, recent: int, successor: int)
    requires entry.Valid() && policy.Valid() && entry.s.fires(stored) && stored <= current
    requires IsPrevious(entry.s, current, recent) && IsNext(entry.s, recent, successor)
    requires SkipCatchUp(entry, policy, stored, current).Some?
    ensures var choice := SkipCatchUp(entry, policy, stored, current).value;
            && (choice.publish ==> current < Deadline(policy, recent, successor))
            && (choice.publish ==> choice.occurrence == recent && choice.successor == successor)
            && (current <= HORIZON ==> (choice.publish <==> current < Deadline(policy, recent, successor)))
  {
    var next := entry.next(stored);
    assert IsNext(entry.s, stored, next.value);
    if current < Deadline(policy, stored, next.value) {
      assert recent == stored;
    } else {
      var found := entry.previous(current).value;
      assert entry.Recent(current, found);
      if found > stored { assert IsNext(entry.s, found, entry.next(found).value); }
    }
  }

  // ---- The tables of one schedule ----

  datatype Cursor = Cursor(nextRunAt: int, policy: Policy)

  /** What a scheduling transaction has decided at the clock reading `decidedAt`, for the scheduling time `time`, and
      not yet written. It holds the schedule's row lock from before the decision to its end. */
  datatype Decision = Decision(choice: Choice, time: int, nextRunAt: int, decidedAt: int)

  /** The clock, the `cron_schedules` row, the `cron_occurrences` claims with their expiries, the transaction holding
      the row's lock, and every occurrence published so far. */
  datatype Cron = Cron(clock: int, cursor: Option<Cursor>, claims: map<int, int>, open: Option<Decision>, published: seq<int>)

  datatype Result = AlreadyPublished(at: int) | SkippedStale(at: int) | SkippedHeld(at: int) | Published(at: int)

  function SchedulingTime(cron: Cron, through: Option<int>): int { if through.Some? then through.value else cron.clock }

  /** What `schedule_cron` decides under its locks. `through` is a burst's boundary; the wall clock is read after the
      dedupe lock. */
  function Decide(entry: Entry, cron: Cron, through: Option<int>): Option<Decision>
    requires cron.cursor.Some?
  {
    var time := SchedulingTime(cron, through);
    var policy := cron.cursor.value.policy;
    var choice := Choose(entry, policy, cron.cursor.value.nextRunAt, time);
    if choice.None? then None else
    var publish := choice.value.publish && cron.clock < Deadline(policy, choice.value.occurrence, choice.value.successor);
    var further := if publish then Some(choice.value.successor) else entry.next(time);
    if further.None? then None
    else Some(Decision(choice.value.(publish := publish), time, further.value, cron.clock))
  }

  /** The cursor test, against the burst's boundary or the transaction's own `now()`. */
  predicate Due(cron: Cron, through: Option<int>, seen: int) {
    cron.cursor.Some? && cron.cursor.value.nextRunAt <= (if through.Some? then through.value else seen)
  }

  /** The writes of the open transaction, and its commit. `held` says whether a live job holds the dedupe key. */
  function Commit(cron: Cron, held: bool): (Cron, Result)
    requires cron.cursor.Some? && cron.open.Some?
  {
    var d, at := cron.open.value, cron.open.value.choice.occurrence;
    var advanced := cron.(cursor := Some(cron.cursor.value.(nextRunAt := d.nextRunAt)), open := None);
    if at in cron.claims then (advanced, AlreadyPublished(at)) else
    var claimed := advanced.(claims := cron.claims[at := Max(d.choice.successor, d.decidedAt + SECOND)]);
    if !d.choice.publish then (claimed, SkippedStale(at))
    else if held then (claimed, SkippedHeld(at))
    else (claimed.(published := cron.published + [at]), Published(at))
  }

  datatype Step =
    | Tick(elapsed: nat)
    | Register(seen: int, policy: Policy)
    | Remove
    | Purge(occurrence: int, seen: int)
    | Begin(through: Option<int>, seen: int)
    | Finish(held: bool)
    | Rollback

  /** Readings are of the past. The row lock of an open transaction keeps every other writer of the row out. */
  predicate Legal(cron: Cron, step: Step) {
    match step
    case Tick(_) => true
    case Register(seen, policy) => seen <= cron.clock && policy.Valid() && cron.open.None?
    case Remove => cron.open.None?
    case Purge(_, seen) => seen <= cron.clock
    case Begin(_, seen) => seen <= cron.clock && cron.open.None?
    case Finish(_) => cron.open.Some? && cron.cursor.Some?
    case Rollback => true
  }

  /** One statement or transaction of any scheduler, sweeper or deploy. A registration of the same expression keeps the
      cursor of a schedule that is there and may change its policy; one that was removed starts after `seen`. */
  function Apply(entry: Entry, cron: Cron, step: Step): Cron
    requires Legal(cron, step)
  {
    match step
    case Tick(elapsed) => cron.(clock := cron.clock + elapsed)
    case Register(seen, policy) =>
      if cron.cursor.Some? then cron.(cursor := Some(cron.cursor.value.(policy := policy)))
      else if entry.next(seen).Some? then cron.(cursor := Some(Cursor(entry.next(seen).value, policy)))
      else cron
    case Remove => cron.(cursor := None)
    case Purge(occurrence, seen) =>
      if occurrence in cron.claims && cron.claims[occurrence] <= seen then cron.(claims := cron.claims - {occurrence}) else cron
    case Begin(through, seen) => if Due(cron, through, seen) then cron.(open := Decide(entry, cron, through)) else cron
    case Finish(held) => Commit(cron, held).0
    case Rollback => cron.(open := None)
  }

  /** A transaction that rolls back leaves nothing behind. */
  lemma RollbackUndoes(entry: Entry, cron: Cron, through: Option<int>, seen: int)
    requires seen <= cron.clock && cron.open.None?
    ensures Apply(entry, Apply(entry, cron, Begin(through, seen)), Rollback) == cron
  {
  }

  /** A registration gives a schedule that is there a new policy and nothing else, and starts one that is not at its first
      occurrence after the reading. */
  lemma RegistrationKeepsTheCursor(entry: Entry, cron: Cron, seen: int, policy: Policy)
    requires Legal(cron, Register(seen, policy)) && entry.next(seen).Some?
    ensures var after := Apply(entry, cron, Register(seen, policy));
            && after == cron.(cursor := after.cursor) && after.cursor.Some? && after.cursor.value.policy == policy
            && after.cursor.value.nextRunAt == (if cron.cursor.Some? then cron.cursor.value.nextRunAt else entry.next(seen).value)
  {
  }

  // ---- What every run keeps ----

  ghost predicate DecisionOk(entry: Entry, cron: Cron, d: Decision) {
    && cron.cursor.Some? && d.decidedAt <= cron.clock
    && IsNext(entry.s, d.choice.occurrence, d.choice.successor) && entry.s.fires(d.nextRunAt)
    && d.time < d.nextRunAt && cron.cursor.value.nextRunAt < d.nextRunAt && d.choice.occurrence < d.nextRunAt
    && cron.cursor.value.nextRunAt <= d.choice.occurrence
    && (d.choice.publish ==> d.decidedAt < d.choice.successor && IsPrevious(entry.s, d.time, d.choice.occurrence))
  }

  /** A published occurrence is still claimed until its successor is due. */
  ghost predicate StillClaimed(entry: Entry, cron: Cron, occurrence: int) {
    forall successor :: IsNext(entry.s, occurrence, successor) ==>
      successor <= cron.clock || (occurrence in cron.claims && successor <= cron.claims[occurrence])
  }

  /** The cursor is always an occurrence, so a due one is a missed or current occurrence. */
  ghost predicate Inv(entry: Entry, cron: Cron) {
    && entry.Valid()
    && (cron.cursor.Some? ==> entry.s.fires(cron.cursor.value.nextRunAt) && cron.cursor.value.policy.Valid())
    && (cron.open.Some? ==> DecisionOk(entry, cron, cron.open.value))
    && (forall occurrence <- cron.published :: StillClaimed(entry, cron, occurrence))
  }

  /** What is up under either policy: never an occurrence before the cursor, and published only as the most recent. */
  lemma ChosenFacts(entry: Entry, policy: Policy, stored: int, time: int)
    requires entry.Valid() && entry.s.fires(stored) && stored <= time && Choose(entry, policy, stored, time).Some?
    ensures var choice := Choose(entry, policy, stored, time).value;
            && IsNext(entry.s, choice.occurrence, choice.successor) && stored <= choice.occurrence
            && (choice.publish ==> IsPrevious(entry.s, time, choice.occurrence))
  {
    if entry.next(stored).Some? { assert IsNext(entry.s, stored, entry.next(stored).value); }
    var previous := entry.previous(time);
    if previous.Some? {
      assert entry.Recent(time, previous.value);
      if entry.next(previous.value).Some? { assert IsNext(entry.s, previous.value, entry.next(previous.value).value); }
    }
  }

  /** Under `FireOnce` what is up is the most recent occurrence, however many were missed. */
  lemma FireOnceCatchesUp(entry: Entry, stored: int, current: int, recent: int, successor: int)
    requires entry.Valid() && current <= HORIZON && IsPrevious(entry.s, current, recent) && IsNext(entry.s, recent, successor)
    requires entry.previous(current).Some? && entry.next(recent).Some?
    ensures Choose(entry, FireOnce, stored, current) == Some(Choice(recent, successor, true))
  {
    assert entry.Recent(current, entry.previous(current).value);
    assert IsNext(entry.s, recent, entry.next(recent).value);
  }

  /** The schedule is due, and every search the decision may need has an answer. */
  ghost predicate Answerable(entry: Entry, cron: Cron, through: Option<int>, seen: int) {
    var time := if through.Some? then through.value else cron.clock;
    && cron.cursor.Some? && cron.cursor.value.nextRunAt <= (if through.Some? then through.value else seen)
    && time <= HORIZON && entry.next(cron.cursor.value.nextRunAt).Some? && entry.next(time).Some?
    && entry.previous(time).Some? && entry.next(entry.previous(time).value).Some?
  }

  /** Whether the policy publishes `recent` at the scheduling time and the clock. */
  predicate Publishes(policy: Policy, recent: int, successor: int, time: int, clock: int) {
    StillOpen(policy, recent, successor, clock) && (policy.Skip? ==> StillOpen(policy, recent, successor, time))
  }

  /** What a due schedule decides, under both policies: to publish the most recent occurrence exactly when it is still
      open, with its successor next; and otherwise only to move on past the scheduling time. */
  lemma DecisionLaw(entry: Entry, cron: Cron, through: Option<int>, seen: int, recent: int, successor: int)
    requires Inv(entry, cron) && seen <= cron.clock && Answerable(entry, cron, through, seen)
    requires IsPrevious(entry.s, SchedulingTime(cron, through), recent) && IsNext(entry.s, recent, successor)
    ensures var time := SchedulingTime(cron, through);
            var decision := Decide(entry, cron, through);
            && decision.Some? && decision.value.decidedAt == cron.clock
            && (decision.value.choice.publish <==> Publishes(cron.cursor.value.policy, recent, successor, time, cron.clock))
            && (if decision.value.choice.publish then
                  decision.value.choice.occurrence == recent && decision.value.nextRunAt == successor
                else IsNext(entry.s, time, decision.value.nextRunAt))
  {
    var time, stored, policy := SchedulingTime(cron, through), cron.cursor.value.nextRunAt, cron.cursor.value.policy;
    assert entry.Recent(time, entry.previous(time).value) && IsNext(entry.s, time, entry.next(time).value);
    DeadlineMeans(policy, recent, successor, time);
    DeadlineMeans(policy, recent, successor, cron.clock);
    assert entry.previous(time) == Some(recent);
    if policy.Skip? {
      SkipCatchUpIsCursorFree(entry, policy, stored, time, recent, successor);
    } else {
      FireOnceCatchesUp(entry, stored, time, recent, successor);
    }
  }

  /** And what the transaction answers and writes: the most recent occurrence is published exactly when it is still open, not
      yet claimed and no live job holds the key. A claim lasts until the successor is due, and at least a second. */
  predicate TransactionWrites(cron: Cron, publishes: bool, recent: int, successor: int, held: bool, after: Cron, result: Result)
    requires cron.cursor.Some?
  {
    if publishes then
      && result == (if recent in cron.claims then AlreadyPublished(recent) else if held then SkippedHeld(recent) else Published(recent))
      && after.claims == (if recent in cron.claims then cron.claims
                          else cron.claims[recent := if cron.clock + 1_000_000 < successor then successor else cron.clock + 1_000_000])
      && after.published == cron.published + (if result.Published? then [recent] else [])
      && after.cursor == Some(Cursor(successor, cron.cursor.value.policy))
    else (result.SkippedStale? || result.AlreadyPublished?) && after.published == cron.published
  }

  lemma TransactionLaw(entry: Entry, cron: Cron, through: Option<int>, seen: int, held: bool, recent: int, successor: int)
    requires Inv(entry, cron) && seen <= cron.clock && cron.open.None? && Answerable(entry, cron, through, seen)
    requires IsPrevious(entry.s, SchedulingTime(cron, through), recent) && IsNext(entry.s, recent, successor)
    ensures var begun := Apply(entry, cron, Begin(through, seen));
            && begun.open.Some? && begun.cursor.Some?
            && TransactionWrites(cron, Publishes(cron.cursor.value.policy, recent, successor, SchedulingTime(cron, through), cron.clock),
                       recent, successor, held, Commit(begun, held).0, Commit(begun, held).1)
  {
    DecisionLaw(entry, cron, through, seen, recent, successor);
    var choice := Decide(entry, cron, through).value.choice;
    ChosenFacts(entry, cron.cursor.value.policy, cron.cursor.value.nextRunAt, SchedulingTime(cron, through));
    assert choice.publish ==> choice.successor == successor;
  }

  lemma DecisionFacts(entry: Entry, cron: Cron, through: Option<int>, seen: int)
    requires Inv(entry, cron) && Due(cron, through, seen) && seen <= cron.clock
    requires Decide(entry, cron, through).Some?
    ensures DecisionOk(entry, cron, Decide(entry, cron, through).value)
  {
    var time := SchedulingTime(cron, through);
    ChosenFacts(entry, cron.cursor.value.policy, cron.cursor.value.nextRunAt, time);
    if entry.next(time).Some? { assert IsNext(entry.s, time, entry.next(time).value); }
  }

  lemma StepKeepsInv(entry: Entry, cron: Cron, step: Step)
    requires Inv(entry, cron) && Legal(cron, step)
    ensures Inv(entry, Apply(entry, cron, step))
  {
    var after := Apply(entry, cron, step);
    match step {
      case Register(seen, policy) =>
        if entry.next(seen).Some? { assert IsNext(entry.s, seen, entry.next(seen).value); }
      case Begin(through, seen) =>
        if Due(cron, through, seen) && Decide(entry, cron, through).Some? { DecisionFacts(entry, cron, through, seen); }
      case _ =>
    }
    forall o <- after.published ensures StillClaimed(entry, after, o) {
      if o in cron.published { assert StillClaimed(entry, cron, o); }
    }
  }

  ghost predicate StepAt(entry: Entry, states: seq<Cron>, steps: seq<Step>, i: int)
    requires |states| == |steps| + 1 && 0 <= i < |steps|
  {
    Legal(states[i], steps[i]) && states[i + 1] == Apply(entry, states[i], steps[i])
  }

  /** A run from tables that know nothing of the schedule. */
  ghost predicate IsRun(entry: Entry, states: seq<Cron>, steps: seq<Step>) {
    && |states| == |steps| + 1 && entry.Valid()
    && states[0].cursor.None? && states[0].open.None? && states[0].published == []
    && forall i :: 0 <= i < |steps| ==> StepAt(entry, states, steps, i)
  }

  lemma {:induction false} RunKeepsInv(entry: Entry, states: seq<Cron>, steps: seq<Step>, k: nat)
    requires IsRun(entry, states, steps) && k < |states|
    ensures Inv(entry, states[k])
  {
    if k > 0 {
      RunKeepsInv(entry, states, steps, k - 1);
      assert StepAt(entry, states, steps, k - 1);
      StepKeepsInv(entry, states[k - 1], steps[k - 1]);
    }
  }

  /** Every commit moves the cursor strictly past its old value and past the scheduling time, under both policies. What
      it publishes is the most recent occurrence at that time, decided before its successor was due; a rerun of a
      claimed occurrence publishes nothing. */
  lemma CursorAdvances(entry: Entry, cron: Cron, held: bool)
    requires Inv(entry, cron) && cron.open.Some?
    ensures var (after, result) := Commit(cron, held);
            && after.cursor.Some? && cron.open.value.time < after.cursor.value.nextRunAt
            && cron.cursor.value.nextRunAt < after.cursor.value.nextRunAt
            && (result.Published? <==> after.published != cron.published)
            && (result.Published? ==>
                  && IsPrevious(entry.s, cron.open.value.time, result.at) && result.at in after.claims
                  && after.published == cron.published + [result.at]
                  && forall successor :: IsNext(entry.s, result.at, successor) ==> cron.open.value.decidedAt < successor)
  {
    var at := cron.open.value.choice.occurrence;
    assert |cron.published + [at]| != |cron.published|;
    assert forall successor :: IsNext(entry.s, at, successor) ==> successor == cron.open.value.choice.successor;
  }

  // ---- At most once ----

  ghost predicate Distinct(s: seq<int>) { forall i, j :: 0 <= i < j < |s| ==> s[i] != s[j] }

  /** A publication's claim lands before its occurrence's successor is due. */
  predicate Prompt(cron: Cron, step: Step) {
    step.Finish? && !step.held && cron.open.Some? && cron.open.value.choice.publish ==>
      cron.clock < cron.open.value.choice.successor
  }

  /** A registration that creates the schedule from a reading no older than what was already published. */
  predicate Fresh(cron: Cron, step: Step) {
    step.Register? && cron.cursor.None? ==> forall o <- cron.published :: o <= step.seen
  }

  /** When a commit publishes an occurrence for the second time: exactly when the occurrence had been published and
      its claim has meanwhile been purged, which takes until its successor is due. */
  lemma SecondPublicationIff(entry: Entry, cron: Cron, held: bool)
    requires Inv(entry, cron) && Distinct(cron.published) && cron.open.Some?
    ensures var choice := cron.open.value.choice;
            && (!Distinct(Commit(cron, held).0.published) <==>
                  choice.publish && !held && choice.occurrence in cron.published && choice.occurrence !in cron.claims)
            && (!Distinct(Commit(cron, held).0.published) ==> choice.successor <= cron.clock)
  {
    var at := cron.open.value.choice.occurrence;
    var after := Commit(cron, held).0.published;
    if at in cron.published {
      assert StillClaimed(entry, cron, at);
      var i :| 0 <= i < |cron.published| && cron.published[i] == at;
      if after != cron.published { assert after[i] == after[|cron.published|]; }
    }
  }

  /** Over any run of schedulers, claim purges, policy changes, removals and re-registrations in which every
      publication's claim lands before the successor is due, no occurrence is published twice. */
  lemma {:induction false} PromptRunsPublishOnce(entry: Entry, states: seq<Cron>, steps: seq<Step>, k: nat)
    requires IsRun(entry, states, steps) && k < |states|
    requires forall i :: 0 <= i < |steps| ==> Prompt(states[i], steps[i])
    ensures Distinct(states[k].published)
  {
    if k > 0 {
      PromptRunsPublishOnce(entry, states, steps, k - 1);
      RunKeepsInv(entry, states, steps, k - 1);
      assert StepAt(entry, states, steps, k - 1) && Prompt(states[k - 1], steps[k - 1]);
      if steps[k - 1].Finish? { SecondPublicationIff(entry, states[k - 1], steps[k - 1].held); }
    }
  }

  ghost predicate Ahead(cron: Cron) {
    cron.cursor.Some? ==> forall o <- cron.published :: o < cron.cursor.value.nextRunAt
  }

  /** Over any run, however late its claims land and whatever is purged, in which every registration that creates the
      schedule is fresh, no occurrence is published twice: the cursor alone stays ahead of everything published. */
  lemma {:induction false} FreshRunsPublishOnce(entry: Entry, states: seq<Cron>, steps: seq<Step>, k: nat)
    requires IsRun(entry, states, steps) && k < |states|
    requires forall i :: 0 <= i < |steps| ==> Fresh(states[i], steps[i])
    ensures Distinct(states[k].published) && Ahead(states[k])
  {
    if k > 0 {
      var cron, step := states[k - 1], steps[k - 1];
      FreshRunsPublishOnce(entry, states, steps, k - 1);
      RunKeepsInv(entry, states, steps, k - 1);
      assert StepAt(entry, states, steps, k - 1) && Fresh(cron, step);
      if step.Finish? { SecondPublicationIff(entry, cron, step.held); }
      if step.Register? && entry.next(step.seen).Some? { assert IsNext(entry.s, step.seen, entry.next(step.seen).value); }
    }
  }

  // ---- What a second publication takes ----

  ghost predicate PublishesAt(states: seq<Cron>, steps: seq<Step>, i: int, occurrence: int)
    requires |states| == |steps| + 1 && 0 <= i < |steps|
  {
    steps[i].Finish? && states[i + 1].published == states[i].published + [occurrence]
  }

  /** The step creates the schedule from a reading before `occurrence`. */
  predicate CreatesBefore(cron: Cron, step: Step, occurrence: int) {
    step.Register? && cron.cursor.None? && step.seen < occurrence
  }

  predicate Past(cron: Cron, occurrence: int) { cron.cursor.Some? ==> occurrence < cron.cursor.value.nextRunAt }

  /** Only such a registration brings the cursor back to an occurrence it had passed. */
  lemma OnlyStaleRegistrationGoesBack(entry: Entry, cron: Cron, step: Step, occurrence: int)
    requires Inv(entry, cron) && Legal(cron, step) && Past(cron, occurrence)
    requires !Past(Apply(entry, cron, step), occurrence)
    ensures CreatesBefore(cron, step, occurrence)
  {
    if step.Register? && entry.next(step.seen).Some? { assert IsNext(entry.s, step.seen, entry.next(step.seen).value); }
  }

  lemma {:induction false} FindStaleRegistration(entry: Entry, states: seq<Cron>, steps: seq<Step>, i: nat, j: nat, occurrence: int)
      returns (m: nat)
    requires IsRun(entry, states, steps) && i <= j < |states|
    requires Past(states[i], occurrence) && !Past(states[j], occurrence)
    ensures i <= m < j && CreatesBefore(states[m], steps[m], occurrence)
    decreases j
  {
    RunKeepsInv(entry, states, steps, j - 1);
    assert StepAt(entry, states, steps, j - 1);
    if Past(states[j - 1], occurrence) {
      m := j - 1;
      OnlyStaleRegistrationGoesBack(entry, states[m], steps[m], occurrence);
    } else {
      m := FindStaleRegistration(entry, states, steps, i, j - 1, occurrence);
    }
  }

  lemma {:induction false} StaysPublished(entry: Entry, states: seq<Cron>, steps: seq<Step>, i: nat, j: nat, occurrence: int)
    requires IsRun(entry, states, steps) && i <= j < |states| && occurrence in states[i].published
    ensures occurrence in states[j].published
    decreases j
  {
    if i < j {
      StaysPublished(entry, states, steps, i, j - 1, occurrence);
      assert StepAt(entry, states, steps, j - 1);
    }
  }

  /** Both at once, for the occurrence itself: whenever it is published at `i` and again at `j`, the schedule was created
      in between from a reading before it, and the second claim landed when its successor was already due. */
  lemma SecondPublicationTakesBoth(entry: Entry, states: seq<Cron>, steps: seq<Step>, i: nat, j: nat, occurrence: int)
      returns (m: nat)
    requires IsRun(entry, states, steps) && i < j < |steps|
    requires PublishesAt(states, steps, i, occurrence) && PublishesAt(states, steps, j, occurrence)
    ensures i < m < j && CreatesBefore(states[m], steps[m], occurrence)
    ensures forall successor :: IsNext(entry.s, occurrence, successor) ==> successor <= states[j].clock
  {
    RunKeepsInv(entry, states, steps, i);
    RunKeepsInv(entry, states, steps, j);
    assert StepAt(entry, states, steps, i) && StepAt(entry, states, steps, j);
    CommitPublishes(states[i], steps[i].held, occurrence);
    CommitPublishes(states[j], steps[j].held, occurrence);
    assert states[i + 1].published[|states[i].published|] == occurrence;
    StaysPublished(entry, states, steps, i + 1, j, occurrence);
    assert StillClaimed(entry, states[j], occurrence);
    m := FindStaleRegistration(entry, states, steps, i + 1, j, occurrence);
  }

  lemma CommitPublishes(cron: Cron, held: bool, occurrence: int)
    requires cron.cursor.Some? && cron.open.Some? && Commit(cron, held).0.published == cron.published + [occurrence]
    ensures cron.open.value.choice.occurrence == occurrence && occurrence !in cron.claims
  {
    assert |cron.published + [occurrence]| != |cron.published|;
    assert Commit(cron, held).0.published[|cron.published|] == occurrence;
  }

  const HOUR: int := 3600 * SECOND

  function OnTheHour(): Entry {
    Entry(Schedule(t => t % HOUR == 0), t => Some((t / HOUR + 1) * HOUR), t => Some(t / HOUR * HOUR))
  }

  /** The hours around `t`: none strictly between them, and one search undoes the other. */
  lemma AroundTheHour(t: int, h: int)
    requires h == t / HOUR
    ensures h * HOUR <= t < (h + 1) * HOUR && h * HOUR % HOUR == 0 && (h + 1) * HOUR % HOUR == 0
    ensures h * HOUR / HOUR == h && forall u :: h * HOUR < u < (h + 1) * HOUR ==> u % HOUR != 0
  {
  }

  lemma OnTheHourIsValid()
    ensures OnTheHour().Valid()
  {
    var entry := OnTheHour();
    forall t ensures IsNext(entry.s, t, entry.next(t).value) { AroundTheHour(t, t / HOUR); }
    forall t ensures entry.Recent(t, entry.previous(t).value) {
      AroundTheHour(t, t / HOUR);
      assert entry.next(t / HOUR * HOUR) == Some((t / HOUR + 1) * HOUR);
    }
  }

  /** The hour's decision, made in time. */
  function HourDecision(): Decision { Decision(Choice(HOUR, 2 * HOUR, true), HOUR, 2 * HOUR, HOUR) }

  function TwiceStep(i: nat): Step {
    match i
    case 0 => Register(0, FireOnce)
    case 1 => Tick(HOUR)
    case 2 => Begin(None, HOUR)
    case 3 => Finish(false)
    case 4 => Remove
    case 5 => Register(0, FireOnce)
    case 6 => Begin(None, HOUR)
    case 7 => Tick(HOUR)
    case 8 => Purge(HOUR, 2 * HOUR)
    case _ => Finish(false)
  }

  function TwiceState(i: nat): Cron {
    var due, passed := Some(Cursor(HOUR, FireOnce)), Some(Cursor(2 * HOUR, FireOnce));
    var claims := map[HOUR := 2 * HOUR];
    match i
    case 0 => Cron(0, None, map[], None, [])
    case 1 => Cron(0, due, map[], None, [])
    case 2 => Cron(HOUR, due, map[], None, [])
    case 3 => Cron(HOUR, due, map[], Some(HourDecision()), [])
    case 4 => Cron(HOUR, passed, claims, None, [HOUR])
    case 5 => Cron(HOUR, None, claims, None, [HOUR])
    case 6 => Cron(HOUR, due, claims, None, [HOUR])
    case 7 => Cron(HOUR, due, claims, Some(HourDecision()), [HOUR])
    case 8 => Cron(2 * HOUR, due, claims, Some(HourDecision()), [HOUR])
    case 9 => Cron(2 * HOUR, due, map[], Some(HourDecision()), [HOUR])
    case _ => Cron(2 * HOUR, passed, claims, None, [HOUR, HOUR])
  }

  lemma TwiceMoves(i: nat)
    requires i < 10
    ensures Legal(TwiceState(i), TwiceStep(i)) && TwiceState(i + 1) == Apply(OnTheHour(), TwiceState(i), TwiceStep(i))
  {
  }

  /** Neither condition can be dropped: a schedule removed and registered again from a reading taken before its last
      publication, then a transaction that decides in time and stalls until the claim has expired and been purged. */
  lemma StaleAndLatePublishesTwice() returns (states: seq<Cron>, steps: seq<Step>)
    ensures IsRun(OnTheHour(), states, steps) && states[|steps|].published == [HOUR, HOUR]
  {
    OnTheHourIsValid();
    states, steps := seq(11, i requires 0 <= i => TwiceState(i)), seq(10, i requires 0 <= i => TwiceStep(i));
    forall i | 0 <= i < |steps| ensures StepAt(OnTheHour(), states, steps, i) { TwiceMoves(i); }
  }

  // ---- The transaction as the tables see it ----

  /** A transaction nothing interleaves with is prompt. */
  lemma WholeTransaction(entry: Entry, cron: Cron, through: Option<int>, seen: int, held: bool)
    requires Inv(entry, cron) && seen <= cron.clock && cron.open.None?
    ensures var begun := Apply(entry, cron, Begin(through, seen));
            begun.open.Some? ==>
              && begun.cursor.Some? && Inv(entry, Commit(begun, held).0)
              && (Distinct(cron.published) ==> Distinct(Commit(begun, held).0.published))
  {
    var begun := Apply(entry, cron, Begin(through, seen));
    StepKeepsInv(entry, cron, Begin(through, seen));
    if begun.open.Some? {
      StepKeepsInv(entry, begun, Finish(held));
      if Distinct(cron.published) { SecondPublicationIff(entry, begun, held); }
    }
  }

  /** The transaction answers for the occurrence the search finds, which is the most recent. */
  ghost predicate AnswersForRecent(entry: Entry, cron: Cron, through: Option<int>, held: bool, after: Cron, result: Result)
    requires cron.cursor.Some?
  {
    var time := if through.Some? then through.value else cron.clock;
    match entry.previous(time)
    case None => false
    case Some(recent) =>
      (match entry.next(recent)
       case None => false
       case Some(successor) =>
         && IsPrevious(entry.s, time, recent) && IsNext(entry.s, recent, successor)
         && TransactionWrites(cron, Publishes(cron.cursor.value.policy, recent, successor, time, cron.clock), recent, successor, held, after, result))
  }

  lemma TransactionAnswers(entry: Entry, cron: Cron, through: Option<int>, seen: int, held: bool)
    requires Inv(entry, cron) && seen <= cron.clock && cron.open.None? && Answerable(entry, cron, through, seen)
    ensures var begun := Apply(entry, cron, Begin(through, seen));
            && begun.open.Some? && begun.cursor.Some?
            && AnswersForRecent(entry, cron, through, held, Commit(begun, held).0, Commit(begun, held).1)
  {
    var time := SchedulingTime(cron, through);
    var recent := entry.previous(time).value;
    assert entry.Recent(time, recent) && IsNext(entry.s, recent, entry.next(recent).value);
    TransactionLaw(entry, cron, through, seen, held, recent, entry.next(recent).value);
  }

  /** The tables of one schedule, and `schedule_cron` run on them with nothing in between. */
  class CronTables {
    var clock: int
    var cursor: Option<Cursor>
    var claims: map<int, int>
    var published: seq<int>

    ghost function Contents(): Cron
      reads this
    {
      Cron(clock, cursor, claims, None, published)
    }

    constructor ()
      ensures Contents() == Cron(0, None, map[], None, [])
    {
      clock, cursor, claims, published := 0, None, map[], [];
    }

    /** No answer means not due, or a search that failed: the transaction rolls back. */
    method ScheduleCron(entry: Entry, through: Option<int>, seen: int, held: bool) returns (result: Option<Result>)
      requires Inv(entry, Contents()) && seen <= clock
      modifies this`cursor, this`claims, this`published
      ensures var begun := Apply(entry, old(Contents()), Begin(through, seen));
              if begun.open.None? then result.None? && Contents() == old(Contents())
              else result.Some? && (Contents(), result.value) == Commit(begun, held)
      ensures Inv(entry, Contents()) && (Distinct(old(published)) ==> Distinct(published))
      ensures Answerable(entry, old(Contents()), through, seen) ==>
                result.Some? && AnswersForRecent(entry, old(Contents()), through, held, Contents(), result.value)
    {
      WholeTransaction(entry, Contents(), through, seen, held);
      if Answerable(entry, Contents(), through, seen) { TransactionAnswers(entry, Contents(), through, seen, held); }
      result := Transact(entry, through, seen, held);
    }

    method Transact(entry: Entry, through: Option<int>, seen: int, held: bool) returns (result: Option<Result>)
      requires seen <= clock
      modifies this`cursor, this`claims, this`published
      ensures var begun := Apply(entry, old(Contents()), Begin(through, seen));
              if begun.open.None? then result.None? && Contents() == old(Contents())
              else result.Some? && (Contents(), result.value) == Commit(begun, held)
    {
      if cursor.None? || cursor.value.nextRunAt > (if through.Some? then through.value else seen) { return None; }
      var stored, policy := cursor.value.nextRunAt, cursor.value.policy;
      var current := clock;
      var time := if through.Some? then through.value else current;
      var choice := Choose(entry, policy, stored, time);
      if choice.None? { return None; }
      var occurrence, successor := choice.value.occurrence, choice.value.successor;
      var publish := choice.value.publish && current < Deadline(policy, occurrence, successor);
      var next := if publish then Some(successor) else entry.next(time);
      if next.None? { return None; }
      if occurrence in claims {
        result := Some(AlreadyPublished(occurrence));
      } else {
        claims := claims[occurrence := Max(successor, current + SECOND)];
        if !publish {
          result := Some(SkippedStale(occurrence));
        } else if held {
          result := Some(SkippedHeld(occurrence));
        } else {
          published := published + [occurrence];
          result := Some(Published(occurrence));
        }
      }
      cursor := Some(Cursor(next.value, policy));
    }
  }
}
