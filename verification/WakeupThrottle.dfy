/**
 The enqueue wake-up throttle: a compare-and-swap loop on one atomic millisecond mark, run by any
 number of threads at once. Each load and each compare-and-swap is one atomic step.
 */
module WakeupThrottle {

  /** The mark's initial value; a clock reading is always smaller. */
  const NEVER_NOTIFIED: nat := 0xFFFF_FFFF_FFFF_FFFF

  datatype Thread = Read(now: nat) | Loaded(now: nat, last: nat) | Won(now: nat) | Refused(now: nat)

  /** The mark, the threads inside the call, and the readings of the winners in the order they won. */
  datatype State = State(mark: nat, threads: map<nat, Thread>, wins: seq<nat>)

  function SaturatingSub(a: nat, b: nat): nat { if a < b then 0 else a - b }

  /** The loop's test on the value it last saw. */
  predicate Taken(window: nat, now: nat, last: nat) {
    last != NEVER_NOTIFIED && SaturatingSub(now, last) < window
  }

  datatype Step = Enter(id: nat, now: nat) | Load(id: nat) | Attempt(id: nat)

  /** `Attempt` is one turn of the loop: the test, then the compare-and-swap, which reloads when it fails. */
  function Apply(window: nat, s: State, step: Step): State {
    match step
    case Enter(id, now) =>
      if id in s.threads || now >= NEVER_NOTIFIED then s else s.(threads := s.threads[id := Read(now)])
    case Load(id) =>
      if id !in s.threads || !s.threads[id].Read? then s
      else s.(threads := s.threads[id := Loaded(s.threads[id].now, s.mark)])
    case Attempt(id) =>
      if id !in s.threads || !s.threads[id].Loaded? then s else
      var now, last := s.threads[id].now, s.threads[id].last;
      if Taken(window, now, last) then s.(threads := s.threads[id := Refused(now)])
      else if s.mark == last then State(now, s.threads[id := Won(now)], s.wins + [now])
      else s.(threads := s.threads[id := Loaded(now, s.mark)])
  }

  /** Every two winners are at least a window apart, in the order they won. */
  ghost predicate Spaced(window: nat, wins: seq<nat>) {
    forall i, j :: 0 <= i < j < |wins| ==> SaturatingSub(wins[j], wins[i]) >= window
  }

  ghost predicate Blocked(window: nat, wins: seq<nat>, now: nat) {
    exists w <- wins :: SaturatingSub(now, w) < window
  }

  ghost predicate ThreadOk(window: nat, s: State, t: Thread) {
    && t.now < NEVER_NOTIFIED
    && (t.Loaded? ==> t.last == NEVER_NOTIFIED || t.last in s.wins)
    && (t.Won? ==> t.now in s.wins)
    && (t.Refused? ==> Blocked(window, s.wins, t.now))
  }

  ghost predicate Inv(window: nat, s: State) {
    && Spaced(window, s.wins)
    && s.mark == (if s.wins == [] then NEVER_NOTIFIED else s.wins[|s.wins| - 1])
    && (forall w <- s.wins :: w < NEVER_NOTIFIED)
    && (forall id <- s.threads :: ThreadOk(window, s, s.threads[id]))
  }

  /** The next winner against every earlier one. */
  lemma WinIsSpaced(window: nat, s: State, now: nat)
    requires Inv(window, s) && !Taken(window, now, s.mark)
    ensures Spaced(window, s.wins + [now])
  {
    var wins := s.wins + [now];
    assert s.wins != [] ==> s.wins[|s.wins| - 1] in s.wins;
    forall i, j | 0 <= i < j < |wins| ensures SaturatingSub(wins[j], wins[i]) >= window {
      if j < |s.wins| {
        assert SaturatingSub(s.wins[j], s.wins[i]) >= window;
      } else if i < |s.wins| - 1 {
        assert SaturatingSub(s.wins[|s.wins| - 1], s.wins[i]) >= window;
      }
    }
  }

  lemma StepKeepsInv(window: nat, s: State, step: Step)
    requires Inv(window, s)
    ensures Inv(window, Apply(window, s, step))
  {
    var after := Apply(window, s, step);
    if step.id in s.threads { assert ThreadOk(window, s, s.threads[step.id]); }
    if after.wins != s.wins { WinIsSpaced(window, s, after.mark); }
    forall id <- after.threads ensures ThreadOk(window, after, after.threads[id]) {
      if id != step.id {
        assert ThreadOk(window, s, s.threads[id]);
        StillOk(window, s, s.threads[id], after);
      } else if id in s.threads {
        StillOk(window, s, s.threads[id], after);
      }
    }
  }

  /** More wins do no thread any harm. */
  lemma StillOk(window: nat, s: State, t: Thread, after: State)
    requires ThreadOk(window, s, t) && forall w <- s.wins :: w in after.wins
    ensures ThreadOk(window, after, t)
  {
    if t.Refused? {
      var w :| w in s.wins && SaturatingSub(t.now, w) < window;
      assert w in after.wins;
    }
  }

  ghost predicate IsRun(window: nat, states: seq<State>, steps: seq<Step>) {
    && |states| == |steps| + 1 && states[0] == State(NEVER_NOTIFIED, map[], [])
    && forall i :: 0 <= i < |steps| ==> states[i + 1] == Apply(window, states[i], steps[i])
  }

  /** However the threads interleave, winners are a window apart, and a thread is refused only when some winner's
      window covers its own reading. */
  lemma {:induction false} OneWinnerPerWindow(window: nat, states: seq<State>, steps: seq<Step>, k: nat)
    requires IsRun(window, states, steps) && k < |states|
    ensures Inv(window, states[k]) && Spaced(window, states[k].wins)
    ensures forall id <- states[k].threads :: states[k].threads[id].Refused? ==>
              Blocked(window, states[k].wins, states[k].threads[id].now)
  {
    if k > 0 {
      OneWinnerPerWindow(window, states, steps, k - 1);
      StepKeepsInv(window, states[k - 1], steps[k - 1]);
    }
    forall id <- states[k].threads ensures ThreadOk(window, states[k], states[k].threads[id]) { }
  }

  /** And a free slot is taken: a thread no winner's window covers wins with its first undisturbed turn, one that another
      thread disturbed looks again, and one it finds covered by the last winner is refused. */
  lemma FreeSlotIsTaken(window: nat, s: State, id: nat)
    requires Inv(window, s) && id in s.threads && s.threads[id].Loaded?
    ensures var now, after := s.threads[id].now, Apply(window, s, Attempt(id));
            && (s.threads[id].last == s.mark && !Blocked(window, s.wins, now) ==>
                  after.threads[id] == Won(now) && after.wins == s.wins + [now] && after.mark == now)
            && (s.threads[id].last == s.mark && s.wins != [] && window > 0 && now < s.wins[|s.wins| - 1] + window ==>
                  after == s.(threads := s.threads[id := Refused(now)]))
            && (s.threads[id].last != s.mark && !Blocked(window, s.wins, now) ==>
                  after == s.(threads := s.threads[id := Loaded(now, s.mark)]))
  {
    var t := s.threads[id];
    assert ThreadOk(window, s, t);
    assert s.wins != [] ==> s.wins[|s.wins| - 1] in s.wins;
    if t.last in s.wins && SaturatingSub(t.now, t.last) < window { assert Blocked(window, s.wins, t.now); }
  }
}
