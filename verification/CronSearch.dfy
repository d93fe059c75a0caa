/**
 Searching a cron schedule with nothing but a bounded forward lookup. A schedule is a set of
 instants (whole seconds, on minute boundaries, repeating every Gregorian cycle); `cronexpr` is the
 oracle that finds the next one inside its window. The runtime search, the binary search
 backwards and the macro's compile-time probe are loops over that oracle.
 */
module CronSearch {
  import opened Rows

  const CYCLE: int := 146_097 * 86_400
  const STEP: int := 3 * 365 * 86_400
  const HEADROOM: int := 4 * 366 * 86_400

  /** The shortest four calendar years, the oracle's window. */
  const WINDOW: int := 4 * 365 * 86_400

  /** The range of `jiff::Timestamp`, in seconds. */
  const MIN_SECOND: int := -377705023201
  const MAX_SECOND: int := 253402207200

  /** The last instant a lookup may start from. */
  const SEARCHABLE: int := MAX_SECOND - HEADROOM

  /** How far past it a search that started no later still sees: the last lookup's window less the step to it. */
  const REACH: int := SEARCHABLE + WINDOW - STEP

  datatype Schedule = Schedule(fires: int -> bool)

  ghost predicate Repeats(s: Schedule, t: int) { s.fires(t) == s.fires(t + CYCLE) }

  /** What a five-field UTC schedule is: minute resolution, and the same calendar every 146097 days. */
  ghost predicate FiveField(s: Schedule) {
    (forall t :: s.fires(t) ==> t % 60 == 0) && (forall t :: Repeats(s, t))
  }

  /** No occurrence in `(a, b]`. */
  ghost predicate Quiet(s: Schedule, a: int, b: int) { forall t :: a < t <= b ==> !s.fires(t) }

  /** `n` is the least occurrence strictly after `t`. */
  ghost predicate IsNext(s: Schedule, t: int, n: int) { t < n && s.fires(n) && Quiet(s, t, n - 1) }

  /** `p` is the greatest occurrence at or before `t`. */
  ghost predicate IsPrevious(s: Schedule, t: int, p: int) { p <= t && s.fires(p) && Quiet(s, p, t) }

  ghost predicate Occurs(s: Schedule) { exists t :: s.fires(t) }

  /** The oracle's answer from `t`: the next occurrence, or none in its whole window. */
  ghost predicate Answers(s: Schedule, find: int -> Option<int>, t: int) {
    match find(t)
    case Some(n) => IsNext(s, t, n)
    case None => Quiet(s, t, t + WINDOW)
  }

  ghost predicate IsOracle(s: Schedule, find: int -> Option<int>) {
    forall t :: MIN_SECOND <= t <= SEARCHABLE ==> Answers(s, find, t)
  }

  function Min(a: int, b: int): int { if a < b then a else b }

  function Max(a: int, b: int): int { if a < b then b else a }

  // ---- Periodicity ----

  lemma {:induction false} Shift(s: Schedule, t: int, k: int)
    requires FiveField(s)
    ensures s.fires(t) == s.fires(t + k * CYCLE)
    decreases if k < 0 then -k else k
  {
    if k > 0 {
      Shift(s, t, k - 1);
      assert Repeats(s, t + (k - 1) * CYCLE);
    } else if k < 0 {
      Shift(s, t, k + 1);
      assert Repeats(s, t + k * CYCLE);
    }
  }

  /** A schedule that occurs at all occurs in every stretch of one cycle. */
  lemma OccursInEveryCycle(s: Schedule, a: int)
    requires FiveField(s) && Occurs(s)
    ensures !Quiet(s, a, a + CYCLE)
  {
    var t :| s.fires(t);
    var k := (a - t) / CYCLE + 1;
    Shift(s, t, k);
    assert a < t + k * CYCLE <= a + CYCLE;
  }

  // ---- The runtime search ----

  function Limit(after: int): int { Min(after + CYCLE, MAX_SECOND) }

  /** What the forward search answers, as a function of the lookup alone. */
  function NextFrom(find: int -> Option<int>, cursor: int, limit: int): Option<int>
    decreases limit - cursor
  {
    if cursor > SEARCHABLE then None else
    match find(cursor)
    case Some(n) => if n <= limit then Some(n) else None
    case None =>
      var further := Min(cursor + STEP, limit);
      if further <= cursor then None else NextFrom(find, further, limit)
  }

  function NextAt(find: int -> Option<int>, after: int): Option<int> { NextFrom(find, after, Limit(after)) }

  lemma {:induction false} NextFromIsNext(s: Schedule, find: int -> Option<int>, after: int, cursor: int, limit: int)
    requires IsOracle(s, find) && MIN_SECOND <= after <= cursor <= limit && Quiet(s, after, cursor)
    ensures var next := NextFrom(find, cursor, limit);
            next.Some? ==> IsNext(s, after, next.value) && next.value <= limit
    decreases limit - cursor
  {
    if cursor <= SEARCHABLE {
      assert Answers(s, find, cursor);
      var further := Min(cursor + STEP, limit);
      if find(cursor).None? && further > cursor { NextFromIsNext(s, find, after, further, limit); }
    }
  }

  /** The next occurrence strictly after `after`, looking at most one cycle ahead. An answer is always the least
      one; no answer means none up to the limit, as far as the lookup may start. Below the headroom the
      search finds an occurrence exactly when the schedule has one at all. */
  method NextAfter(ghost s: Schedule, find: int -> Option<int>, after: int) returns (next: Option<int>)
    requires IsOracle(s, find) && MIN_SECOND <= after <= MAX_SECOND
    ensures next == NextAt(find, after)
    ensures next.Some? ==> IsNext(s, after, next.value) && next.value <= Limit(after)
    ensures next.None? && after <= SEARCHABLE ==> Quiet(s, after, Min(Limit(after), REACH))
    ensures after > SEARCHABLE ==> next.None?
    ensures FiveField(s) && after + CYCLE <= SEARCHABLE ==> (next.Some? <==> Occurs(s))
  {
    if FiveField(s) && Occurs(s) { OccursInEveryCycle(s, after); }
    var limit := Limit(after);
    var cursor := after;
    while true
      invariant after <= cursor <= limit && Quiet(s, after, cursor)
      invariant cursor == after || Quiet(s, after, cursor - STEP + WINDOW)
      invariant NextAt(find, after) == NextFrom(find, cursor, limit)
      decreases limit - cursor
    {
      if cursor > SEARCHABLE { return None; }
      assert Answers(s, find, cursor);
      match find(cursor)
      case Some(n) =>
        return if n <= limit then Some(n) else None;
      case None =>
        var further := Min(cursor + STEP, limit);
        if further <= cursor { return None; }
        cursor := further;
    }
  }

  // ---- The binary search backwards ----

  function Minute(now: int): int { now / 60 * 60 }

  /** The forward search from here answers nothing at or before `now`. */
  predicate Beyond(next: Option<int>, now: int) { next.Some? ==> next.value > now }

  /** Where the backward search lands past the headroom: on the minute of `now` if that is an occurrence; else no further
      than the first occurrence after the headroom, and there if a lookup must see it. */
  ghost predicate StopsAt(s: Schedule, now: int, previous: Option<int>) {
    if s.fires(Minute(now)) then previous == Some(Minute(now))
    else
      && (previous.Some? && previous.value > SEARCHABLE ==> IsNext(s, SEARCHABLE, previous.value))
      && (forall n :: IsNext(s, SEARCHABLE, n) && n <= Min(now, REACH) ==> previous == Some(n))
  }

  /** What the backward search answers. Up to the headroom it is exact. Past it an answer is still an occurrence not
      after `now`, the last one up to the headroom or the first one behind it, and the forward search from it finds nothing
      up to `now`. No answer means no occurrence in the whole cycle up to `now`, as far as a lookup sees. */
  ghost predicate PreviousAnswer(s: Schedule, find: int -> Option<int>, now: int, previous: Option<int>) {
    && (previous.Some? ==>
          && s.fires(previous.value) && MIN_SECOND <= previous.value <= now
          && Quiet(s, previous.value, Min(now, SEARCHABLE)) && Beyond(NextAt(find, previous.value), now))
    && (previous.None? ==> Quiet(s, Max(MIN_SECOND, now - CYCLE) - 1, Min(now, REACH)))
    && (now > SEARCHABLE ==> StopsAt(s, now, previous))
  }

  /** The latest occurrence at or before `now`, by binary search over the forward search. For every `now` within the
      headroom the answer is exact; past it the search may stop short, as `ExactPastHeadroom` says. */
  method PreviousAtOrBefore(ghost s: Schedule, find: int -> Option<int>, matches: int -> bool, now: int)
      returns (previous: Option<int>)
    requires IsOracle(s, find) && FiveField(s) && MIN_SECOND <= now <= MAX_SECOND
    requires forall t :: matches(t) == s.fires(t)
    ensures PreviousAnswer(s, find, now, previous)
    ensures now <= SEARCHABLE && previous.Some? ==> IsPrevious(s, now, previous.value)
    ensures now <= REACH && MIN_SECOND + CYCLE <= now ==> (previous.Some? <==> Occurs(s))
  {
    previous := Search(s, find, matches, now);
    AnsweredIffOccurs(s, find, now, previous);
  }

  method Search(ghost s: Schedule, find: int -> Option<int>, matches: int -> bool, now: int) returns (previous: Option<int>)
    requires IsOracle(s, find) && FiveField(s) && MIN_SECOND <= now <= MAX_SECOND
    requires forall t :: matches(t) == s.fires(t)
    ensures PreviousAnswer(s, find, now, previous)
  {
    var minute := Minute(now);
    assert Quiet(s, minute, now);
    if minute < MIN_SECOND { return None; }
    if matches(minute) {
      MinuteIsLast(s, find, now);
      return Some(minute);
    }

    var floor := Max(now - CYCLE, MIN_SECOND);
    FloorIsQuiet(s, now, minute);
    var first := NextAfter(s, find, floor);
    if first.None? || first.value > now {
      NothingToStopAt(s, now, floor);
      return None;
    }
    var latest := Narrow(s, find, now, floor, first.value);
    previous := Some(latest);
  }

  /** With a whole cycle behind it that a lookup sees, the search answers exactly if the schedule occurs at all. */
  lemma AnsweredIffOccurs(s: Schedule, find: int -> Option<int>, now: int, previous: Option<int>)
    requires FiveField(s) && PreviousAnswer(s, find, now, previous)
    ensures now <= REACH && MIN_SECOND + CYCLE <= now ==> (previous.Some? <==> Occurs(s))
  {
    if Occurs(s) { OccursInEveryCycle(s, now - CYCLE); }
  }

  /** The bisection: `low` always has the answer as its next occurrence, and the search from `high` finds nothing more. */
  method Narrow(ghost s: Schedule, find: int -> Option<int>, now: int, floor: int, first: int) returns (latest: int)
    requires IsOracle(s, find) && MIN_SECOND <= floor <= SEARCHABLE && floor <= now <= Limit(floor)
    requires IsNext(s, floor, first) && first <= now && !s.fires(Minute(now))
    ensures PreviousAnswer(s, find, now, Some(latest))
  {
    latest := first;
    var low, high := floor, now;
    while high - low > 1
      invariant floor <= low <= high <= now && low <= SEARCHABLE
      invariant IsNext(s, low, latest) && latest <= now
      invariant high == now || Beyond(NextAt(find, high), now)
      invariant Quiet(s, high, Min(now, SEARCHABLE))
      invariant now > SEARCHABLE && !Quiet(s, SEARCHABLE, Min(now, REACH)) ==> low <= SEARCHABLE < high
      decreases high - low
    {
      var midpoint := low + (high - low) / 2;
      var next := NextAfter(s, find, midpoint);
      if next.Some? && next.value <= now {
        latest, low := next.value, midpoint;
      } else {
        high := midpoint;
      }
    }
    BoundsMeet(s, find, now, low, high, latest);
  }

  lemma BoundsMeet(s: Schedule, find: int -> Option<int>, now: int, low: int, high: int, latest: int)
    requires IsOracle(s, find) && MIN_SECOND <= low <= high <= low + 1 && high <= now <= Limit(low) && low <= SEARCHABLE
    requires IsNext(s, low, latest) && latest <= now && Quiet(s, high, Min(now, SEARCHABLE)) && !s.fires(Minute(now))
    requires high == now || Beyond(NextAt(find, high), now)
    requires now > SEARCHABLE && !Quiet(s, SEARCHABLE, Min(now, REACH)) ==> low <= SEARCHABLE < high
    ensures PreviousAnswer(s, find, now, Some(latest))
  {
    NarrowedDown(s, now, low, high, latest);
    NothingFurther(s, find, now, low, high, latest);
  }

  lemma MinuteIsLast(s: Schedule, find: int -> Option<int>, now: int)
    requires IsOracle(s, find) && FiveField(s) && MIN_SECOND <= Minute(now) && now <= MAX_SECOND && s.fires(Minute(now))
    ensures Beyond(NextAt(find, Minute(now)), now)
  {
    NextFromIsNext(s, find, Minute(now), Minute(now), Limit(Minute(now)));
  }

  lemma NothingToStopAt(s: Schedule, now: int, floor: int)
    requires floor <= SEARCHABLE && Quiet(s, floor, Min(now, REACH)) && !s.fires(Minute(now))
    ensures StopsAt(s, now, None)
  {
  }

  /** What the two bounds say once they meet. */
  lemma NarrowedDown(s: Schedule, now: int, low: int, high: int, latest: int)
    requires low <= high <= low + 1 && high <= now && IsNext(s, low, latest) && latest <= now && low <= SEARCHABLE
    requires Quiet(s, high, Min(now, SEARCHABLE)) && !s.fires(Minute(now))
    requires now > SEARCHABLE && !Quiet(s, SEARCHABLE, Min(now, REACH)) ==> low <= SEARCHABLE < high
    ensures Quiet(s, latest, Min(now, SEARCHABLE)) && (now > SEARCHABLE ==> StopsAt(s, now, Some(latest)))
  {
    if now > SEARCHABLE {
      forall n | IsNext(s, SEARCHABLE, n) && n <= Min(now, REACH) ensures latest == n {
        assert low == SEARCHABLE;
      }
    }
  }

  /** And what they say about searching on from the answer: past the headroom a search refuses to start, and up to it
      the answer is the upper bound itself. */
  lemma NothingFurther(s: Schedule, find: int -> Option<int>, now: int, low: int, high: int, latest: int)
    requires IsOracle(s, find) && MIN_SECOND <= low <= high <= low + 1 && high <= now <= Min(low + CYCLE, MAX_SECOND)
    requires IsNext(s, low, latest) && latest <= now && Quiet(s, high, Min(now, SEARCHABLE))
    requires high == now || Beyond(NextAt(find, high), now)
    ensures Beyond(NextAt(find, latest), now)
  {
    if latest == now { NextFromIsNext(s, find, latest, latest, Limit(latest)); }
  }

  /** The instant a whole cycle back is no occurrence, or the minute of `now` would have matched. */
  lemma FloorIsQuiet(s: Schedule, now: int, minute: int)
    requires FiveField(s) && minute == Minute(now) && !s.fires(minute)
    ensures !s.fires(Max(now - CYCLE, MIN_SECOND))
  {
    assert Repeats(s, now - CYCLE);
    assert MIN_SECOND % 60 != 0;
  }

  ghost predicate AtMostOne(s: Schedule, a: int, b: int) {
    forall t, u :: a < t <= b && a < u <= b && s.fires(t) && s.fires(u) ==> t == u
  }

  /** A lookup settles whether the schedule fires between the headroom and `now`: it does not, or it does so soon enough
      to be seen. A schedule that fires in the 365 days after the headroom is settled at every `now`. */
  ghost predicate Settled(s: Schedule, now: int) {
    Quiet(s, SEARCHABLE, now) || !Quiet(s, SEARCHABLE, Min(now, REACH))
  }

  /** The first occurrence behind the headroom is the last one up to `now` exactly when it is the only one. */
  lemma FirstIsLastIffOnly(s: Schedule, now: int, n: int)
    requires IsNext(s, SEARCHABLE, n) && n <= now
    ensures IsPrevious(s, now, n) <==> AtMostOne(s, SEARCHABLE, now)
  {
    if IsPrevious(s, now, n) {
      forall t | SEARCHABLE < t <= now && s.fires(t) ensures t == n { }
    } else {
      var t :| n < t <= now && s.fires(t);
    }
  }

  /** Where the answer lies when `now`'s minute is no occurrence but something fires behind the headroom. */
  lemma StopsAtFirst(s: Schedule, now: int, p: int, n: int)
    requires SEARCHABLE < now && !s.fires(Minute(now)) && StopsAt(s, now, Some(p)) && IsNext(s, SEARCHABLE, n) && n <= now
    ensures p > SEARCHABLE ==> p == n
    ensures p <= SEARCHABLE ==> !IsPrevious(s, now, p)
    ensures Settled(s, now) ==> p == n
  {
    if Settled(s, now) {
      var u :| SEARCHABLE < u <= Min(now, REACH) && s.fires(u);
      assert n <= u;
    }
  }

  /** Past the headroom the answer is right exactly when the minute of `now` is an occurrence or at most one occurrence
      lies between the headroom and `now`; where no lookup is sure to see that one, also only if it was found. */
  lemma ExactPastHeadroom(s: Schedule, find: int -> Option<int>, now: int, p: int)
    requires FiveField(s) && SEARCHABLE < now && PreviousAnswer(s, find, now, Some(p))
    ensures Settled(s, now) ==> (IsPrevious(s, now, p) <==> s.fires(Minute(now)) || AtMostOne(s, SEARCHABLE, now))
    ensures !Settled(s, now) ==>
              (IsPrevious(s, now, p) <==> s.fires(Minute(now)) || (AtMostOne(s, SEARCHABLE, now) && p > SEARCHABLE))
  {
    if s.fires(Minute(now)) {
      assert Quiet(s, Minute(now), now);
    } else if !Quiet(s, SEARCHABLE, now) {
      var t :| SEARCHABLE < t <= now && s.fires(t);
      var n := Least(s, SEARCHABLE, t);
      StopsAtFirst(s, now, p, n);
      FirstIsLastIffOnly(s, now, n);
    }
  }

  /** The least occurrence in `(a, b]`. */
  ghost function Least(s: Schedule, a: int, b: int): (n: int)
    requires a < b && s.fires(b)
    ensures n <= b && IsNext(s, a, n)
    decreases b - a
  {
    if s.fires(a + 1) then a + 1 else Least(s, a + 1, b)
  }

  function Hourly(): Schedule { Schedule(t => t % 3600 == 0) }

  function NextHour(t: int): Option<int> { Some((t / 3600 + 1) * 3600) }

  lemma HourlyIsOracle()
    ensures FiveField(Hourly()) && IsOracle(Hourly(), NextHour)
  {
    forall t ensures Repeats(Hourly(), t) {
      assert CYCLE == 3600 * (CYCLE / 3600);
      assert (t + CYCLE) % 3600 == t % 3600;
    }
    forall t ensures Answers(Hourly(), NextHour, t) {
      var n := (t / 3600 + 1) * 3600;
      forall u | t < u <= n - 1 ensures !Hourly().fires(u) {
        assert t / 3600 * 3600 < u < (t / 3600) * 3600 + 3600;
      }
    }
  }

  /** An hourly schedule, two hours and a minute past the headroom: the search answers with the hour before last. */
  method StalePastHeadroom() returns (now: int, previous: Option<int>)
    ensures now <= MAX_SECOND && previous.Some? && !IsPrevious(Hourly(), now, previous.value)
    ensures IsPrevious(Hourly(), now, previous.value + 3600)
  {
    HourlyIsOracle();
    now := SEARCHABLE + 7260;
    assert Answers(Hourly(), NextHour, SEARCHABLE) && IsNext(Hourly(), SEARCHABLE, SEARCHABLE + 3600);
    assert Minute(now) == now && !Hourly().fires(now);
    previous := PreviousAtOrBefore(Hourly(), NextHour, t => t % 3600 == 0, now);
    assert Hourly().fires(SEARCHABLE + 7200);
  }

  // ---- The macro's probe ----

  /** The compile-time check: a schedule is accepted exactly when it has an occurrence. */
  method AcceptsAtCompileTime(ghost s: Schedule, find: int -> Option<int>) returns (accepted: bool)
    requires IsOracle(s, find) && FiveField(s)
    ensures accepted <==> Occurs(s)
  {
    if Occurs(s) { OccursInEveryCycle(s, 0); }
    var cursor := 0;
    while cursor <= CYCLE
      invariant 0 <= cursor <= CYCLE + STEP && Quiet(s, 0, cursor)
      decreases CYCLE - cursor
    {
      assert Answers(s, find, cursor);
      if find(cursor).Some? { return true; }
      cursor := cursor + STEP;
    }
    accepted := false;
  }

  /** Compile time and run time agree: an accepted schedule resolves from every instant whose cycle stays below the
      headroom, and a rejected one resolves from none. */
  method CompiledScheduleResolves(ghost s: Schedule, find: int -> Option<int>, after: int) returns (accepted: bool, next: Option<int>)
    requires IsOracle(s, find) && FiveField(s) && MIN_SECOND <= after <= SEARCHABLE - CYCLE
    ensures accepted == next.Some?
    ensures accepted ==> IsNext(s, after, next.value)
  {
    accepted := AcceptsAtCompileTime(s, find);
    next := NextAfter(s, find, after);
  }
}
