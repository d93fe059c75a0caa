/**
 The dashboard's credential throttle: a token bucket per client and channel, in a map of bounded
 size. Times are nanoseconds on the process's monotone clock.
 */
module Throttle {
  import opened Rows

  const BURST: nat := 16
  const REFILL: int := 100_000_000
  const MAX_CLIENTS: nat := 1024

  datatype Client = Peer(address: nat) | Any

  datatype Channel = Basic | Interactive

  datatype Key = Key(client: Client, channel: Channel)

  datatype Tokens = Tokens(available: nat, refilledAt: int)

  type Buckets = map<Key, Tokens>

  function Arriving(now: int, displaced: Option<nat>): Tokens {
    match displaced
    case Some(available) => Tokens(if available < 1 then 1 else available, now)
    case None => Tokens(BURST, now)
  }

  function Refill(t: Tokens, now: int): Tokens
    requires t.available <= BURST
  {
    var elapsed := (if now > t.refilledAt then now - t.refilledAt else 0) / REFILL;
    if elapsed >= BURST - t.available then Tokens(BURST, now)
    else Tokens(t.available + elapsed, t.refilledAt + REFILL * elapsed)
  }

  /** Every bucket is within the burst and was last touched no later than `now`, and the map is bounded. */
  ghost predicate Sound(m: Buckets, now: int) {
    |m| <= MAX_CLIENTS && forall k :: k in m ==> m[k].available <= BURST && m[k].refilledAt <= now
  }

  // ---- The class ----

  function Retained(m: Buckets, now: int): Buckets
    requires forall k :: k in m ==> m[k].available <= BURST
  {
    map k | k in m && Refill(m[k], now).available < BURST :: Refill(m[k], now)
  }

  ghost predicate IsFullest(m: Buckets, k: Key) {
    k in m && forall j :: j in m ==> m[j].available <= m[k].available
  }

  /** What making room may leave: nothing changes below the bound; at it the full buckets go, or, if there is none,
      one fullest bucket. */
  ghost predicate MadeRoom(m: Buckets, now: int, room: Buckets, displaced: Option<nat>)
    requires forall k :: k in m ==> m[k].available <= BURST
  {
    var kept := Retained(m, now);
    if |m| < MAX_CLIENTS then room == m && displaced.None?
    else if |kept| < MAX_CLIENTS then room == kept && displaced.None?
    else exists k :: IsFullest(kept, k) && room == kept - {k} && displaced == Some(kept[k].available)
  }

  /** The bucket a spend draws on, already refilled. */
  function Drawn(m: Buckets, key: Key, now: int, displaced: Option<nat>): Tokens
    requires key in m ==> m[key].available <= BURST
    requires displaced.Some? ==> displaced.value <= BURST
  {
    Refill(if key in m then m[key] else Arriving(now, displaced), now)
  }

  ghost predicate SpendsFrom(m: Buckets, key: Key, now: int, room: Buckets, displaced: Option<nat>, after: Buckets, ok: bool)
    requires forall k :: k in m ==> m[k].available <= BURST
  {
    && (if key in m then room == m && displaced.None? else MadeRoom(m, now, room, displaced))
    && (displaced.Some? ==> displaced.value <= BURST)
    && var t := Drawn(m, key, now, displaced);
       ok == (t.available > 0) && after == room[key := if ok then t.(available := t.available - 1) else t]
  }

  ghost predicate Spends(m: Buckets, key: Key, now: int, after: Buckets, ok: bool)
    requires forall k :: k in m ==> m[k].available <= BURST
  {
    exists room, displaced :: SpendsFrom(m, key, now, room, displaced, after, ok)
  }

  function Refunded(m: Buckets, key: Key): Buckets {
    if key in m then m[key := m[key].(available := if m[key].available + 1 < BURST then m[key].available + 1 else BURST)]
    else m
  }

  method Fullest(m: Buckets) returns (fullest: Key)
    requires m != map[]
    ensures IsFullest(m, fullest)
  {
    fullest :| fullest in m;
    var rest := m.Keys - {fullest};
    while rest != {}
      invariant fullest in m && rest <= m.Keys
      invariant forall j :: j in m && j !in rest ==> m[j].available <= m[fullest].available
      decreases |rest|
    {
      var k :| k in rest;
      rest := rest - {k};
      if m[k].available >= m[fullest].available { fullest := k; }
    }
  }

  class AuthThrottle {
    var buckets: Buckets

    ghost predicate Valid(now: int)
      reads this
    {
      Sound(buckets, now)
    }

    constructor ()
      ensures buckets == map[]
    {
      buckets := map[];
    }

    method MakeRoom(now: int) returns (displaced: Option<nat>)
      requires Valid(now)
      modifies this
      ensures MadeRoom(old(buckets), now, buckets, displaced) && |buckets| < MAX_CLIENTS
    {
      displaced := None;
      if |buckets| < MAX_CLIENTS { return; }
      RetainShrinks(buckets, now);
      buckets := Retained(buckets, now);
      ghost var kept := buckets;
      while |buckets| >= MAX_CLIENTS
        invariant displaced.None? ==> buckets == kept
        invariant displaced.Some? ==> |kept| == MAX_CLIENTS && |buckets| < MAX_CLIENTS && exists k ::
                      IsFullest(kept, k) && buckets == kept - {k} && displaced == Some(kept[k].available)
        decreases |buckets|
      {
        var fullest := Fullest(buckets);
        displaced := Some(buckets[fullest].available);
        RemovalShrinks(buckets, fullest);
        buckets := buckets - {fullest};
      }
    }

    method Spend(key: Key, now: int) returns (ok: bool)
      requires Valid(now)
      modifies this
      ensures Valid(now) && Spends(old(buckets), key, now, buckets, ok)
    {
      var displaced: Option<nat> := None;
      if key !in buckets { displaced := MakeRoom(now); }
      ghost var room := buckets;
      RoomIsSound(old(buckets), key, now, room, displaced);
      var tokens := Refill(if key in buckets then buckets[key] else Arriving(now, displaced), now);
      ok := tokens.available != 0;
      if ok { tokens := tokens.(available := tokens.available - 1); }
      buckets := buckets[key := tokens];
      assert SpendsFrom(old(buckets), key, now, room, displaced, buckets, ok);
      SpendKeepsSound(old(buckets), key, now, buckets, ok);
    }

    method Refund(key: Key, ghost now: int)
      requires Valid(now)
      modifies this
      ensures Valid(now) && buckets == Refunded(old(buckets), key)
    {
      if key in buckets {
        var more := buckets[key].available + 1;
        buckets := buckets[key := buckets[key].(available := if more < BURST then more else BURST)];
      }
    }
  }

  // ---- The bound on the map ----

  lemma SubmapSize(a: Buckets, b: Buckets)
    requires a.Keys <= b.Keys
    ensures |a| <= |b| && (|a| == |b| ==> a.Keys == b.Keys)
  {
    assert |a| == |a.Keys| && |b| == |b.Keys|;
    var rest := b.Keys - a.Keys;
    assert b.Keys == a.Keys + rest;
  }

  lemma RetainShrinks(m: Buckets, now: int)
    requires Sound(m, now)
    ensures |Retained(m, now)| <= |m| && Sound(Retained(m, now), now)
  {
    SubmapSize(Retained(m, now), m);
    forall k | k in m ensures Refill(m[k], now).refilledAt <= now { RefillIsInvisible(m[k], now, now); }
  }

  lemma RemovalShrinks(m: Buckets, k: Key)
    requires k in m
    ensures |m - {k}| == |m| - 1
  {
    assert |m| == |m.Keys| && |m - {k}| == |(m - {k}).Keys|;
    assert (m - {k}).Keys == m.Keys - {k};
  }

  lemma RoomIsSound(m: Buckets, key: Key, now: int, room: Buckets, displaced: Option<nat>)
    requires Sound(m, now)
    requires if key in m then room == m && displaced.None? else MadeRoom(m, now, room, displaced)
    ensures Sound(room, now) && (key !in m ==> |room| < MAX_CLIENTS && key !in room)
    ensures displaced.Some? ==> displaced.value <= BURST
  {
    if key !in m && |m| >= MAX_CLIENTS {
      var kept := Retained(m, now);
      RetainShrinks(m, now);
      if |kept| >= MAX_CLIENTS {
        var k :| IsFullest(kept, k) && room == kept - {k} && displaced == Some(kept[k].available);
        RemovalShrinks(kept, k);
        assert room.Keys <= kept.Keys && forall j :: j in room ==> room[j] == kept[j];
      }
    }
  }

  /** The map never exceeds its bound, and a newcomer is always granted its first comparison. */
  lemma SpendKeepsSound(m: Buckets, key: Key, now: int, after: Buckets, ok: bool)
    requires Sound(m, now) && Spends(m, key, now, after, ok)
    ensures Sound(after, now) && key in after && (key !in m ==> ok)
  {
    var room: Buckets, displaced: Option<nat> :| SpendsFrom(m, key, now, room, displaced, after, ok);
    RoomIsSound(m, key, now, room, displaced);
    var drawn := if key in m then m[key] else Arriving(now, displaced);
    RefillIsInvisible(drawn, now, now);
    UpdateIsSound(room, key, after[key], now);
  }

  lemma UpdateIsSound(room: Buckets, key: Key, t: Tokens, now: int)
    requires Sound(room, now) && (key !in room ==> |room| < MAX_CLIENTS) && t.available <= BURST && t.refilledAt <= now
    ensures Sound(room[key := t], now)
  {
    var after := room[key := t];
    RemovalShrinks(after, key);
    if key in room { RemovalShrinks(room, key); }
    SubmapSize(after - {key}, room - {key});
    assert key !in room ==> room - {key} == room;
  }

  // ---- A bucket is a fluid bucket read in whole tokens ----

  function Least(a: int, b: int): int { if a < b then a else b }

  /** What the ideal bucket holds at `now`, in nanoseconds: it fills continuously and stops at one burst. */
  function Level(t: Tokens, now: int): int {
    Least(BURST * REFILL, t.available * REFILL + now - t.refilledAt)
  }

  /** Refilling is invisible at every later instant, whenever and however often it happens, and reads off the whole
      tokens of the level. */
  lemma RefillIsInvisible(t: Tokens, at: int, now: int)
    requires t.available <= BURST && t.refilledAt <= at <= now
    ensures Refill(t, at).available <= BURST && Refill(t, at).refilledAt <= at
    ensures Level(Refill(t, at), now) == Level(t, now)
    ensures Refill(t, at).available == Level(t, at) / REFILL
  {
    var elapsed := (at - t.refilledAt) / REFILL;
    assert elapsed * REFILL <= at - t.refilledAt < elapsed * REFILL + REFILL;
    if elapsed >= BURST - t.available {
      assert t.available * REFILL + at - t.refilledAt >= BURST * REFILL;
    }
  }

  /** A spend is granted exactly when the ideal bucket holds a whole token, and takes exactly that token; nobody
      else's bucket changes level, and nobody is evicted. */
  lemma SpendTakesOneToken(m: Buckets, key: Key, now: int, after: Buckets, ok: bool)
    requires Sound(m, now) && key in m && Spends(m, key, now, after, ok)
    ensures ok <==> Level(m[key], now) >= REFILL
    ensures after.Keys == m.Keys && Level(after[key], now) == Level(m[key], now) - (if ok then REFILL else 0)
    ensures forall k :: k in m && k != key ==> after[k] == m[k]
  {
    RefillIsInvisible(m[key], now, now);
  }

  /** A refund puts one token back, up to the burst. */
  lemma RefundReturnsOneToken(m: Buckets, key: Key, now: int)
    requires Sound(m, now) && key in m
    ensures Refunded(m, key).Keys == m.Keys && Sound(Refunded(m, key), now)
    ensures Level(Refunded(m, key)[key], now) == Least(BURST * REFILL, Level(m[key], now) + REFILL)
  {
    SubmapSize(Refunded(m, key), m);
  }

  /** A newcomer changes nobody's level; those who leave were full, or there was no full bucket and the one that left
      was a fullest. */
  lemma NewcomerChangesNoLevel(m: Buckets, key: Key, now: int, after: Buckets, ok: bool, k: Key)
    requires Sound(m, now) && key !in m && Spends(m, key, now, after, ok) && k in m
    ensures k in after ==> Level(after[k], now) == Level(m[k], now)
    ensures k !in after ==> forall j :: j in m ==> Level(m[j], now) / REFILL <= Level(m[k], now) / REFILL
  {
    var room: Buckets, displaced: Option<nat> :| SpendsFrom(m, key, now, room, displaced, after, ok);
    RefillIsInvisible(m[k], now, now);
    var kept := Retained(m, now);
    SubmapSize(kept, m);
    forall j | k !in after && j in m ensures Level(m[j], now) / REFILL <= Level(m[k], now) / REFILL {
      RefillIsInvisible(m[j], now, now);
      assert k in kept ==> IsFullest(kept, k) && j in kept;
    }
  }

  // ---- Sums over a map ----

  ghost function Sum(m: map<Key, int>): int {
    if m == map[] then 0 else var k :| k in m; m[k] + Sum(m - {k})
  }

  lemma {:induction false} SumRemove(m: map<Key, int>, k: Key)
    requires k in m
    ensures Sum(m) == m[k] + Sum(m - {k})
    decreases |m|
  {
    var c :| c in m && Sum(m) == m[c] + Sum(m - {c});
    if c != k {
      SumRemove(m - {c}, k);
      SumRemove(m - {k}, c);
      assert m - {c} - {k} == m - {k} - {c};
    }
  }

  /** Fewer keys, each at most `d` above its counterpart. */
  lemma {:induction false} SumAtMost(a: map<Key, int>, b: map<Key, int>, d: nat)
    requires a.Keys <= b.Keys
    requires forall k :: k in b ==> 0 <= b[k] && (k in a ==> a[k] <= b[k] + d)
    ensures Sum(a) <= Sum(b) + |b| * d
    decreases |b|
  {
    if b == map[] {
      assert a == map[];
    } else {
      var k :| k in b;
      SumRemove(b, k);
      if k in a { SumRemove(a, k); } else { assert a - {k} == a; }
      SumAtMost(a - {k}, b - {k}, d);
      assert |b| == |b.Keys| && |b - {k}| == |(b - {k}).Keys| && (b - {k}).Keys == b.Keys - {k};
      assert |b| * d == (|b| - 1) * d + d;
    }
  }

  /** One key gone, one key new, no other up. */
  lemma SumReplace(a: map<Key, int>, b: map<Key, int>, gone: Key, key: Key)
    requires gone in a && key in b && (gone == key || gone !in b)
    requires forall k :: k in a ==> 0 <= a[k]
    requires forall k :: k in b && k != key ==> k in a && b[k] <= a[k]
    ensures Sum(b) <= Sum(a) - a[gone] + b[key]
  {
    SumRemove(a, gone);
    SumRemove(b, key);
    SumAtMost(b - {key}, a - {gone}, 0);
  }

  ghost function Levels(m: Buckets, now: int): map<Key, int> { map k | k in m :: Level(m[k], now) }

  ghost function TokensOf(m: Buckets, now: int): map<Key, int>
    requires forall k :: k in m ==> m[k].available <= BURST
  {
    map k | k in m :: Refill(m[k], now).available
  }

  // ---- What a newcomer is worth ----

  /** The buckets a newcomer finds itself among, its own included, before it spends. */
  ghost predicate Admits(m: Buckets, key: Key, now: int, admitted: Buckets)
    requires forall k :: k in m ==> m[k].available <= BURST
  {
    exists room, displaced :: MadeRoom(m, now, room, displaced) && admitted == room[key := Arriving(now, displaced)]
  }

  ghost predicate Drained(m: Buckets, now: int)
    requires forall k :: k in m ==> m[k].available <= BURST
  {
    forall k :: k in m ==> Refill(m[k], now).available == 0
  }

  ghost predicate KeepsTokens(m: Buckets, now: int, room: Buckets, k: Key) {
    && k in m && k in room && m[k].available <= BURST && room[k].available <= BURST
    && Refill(room[k], now).available == Refill(m[k], now).available
  }

  lemma RoomKeepsTokens(m: Buckets, now: int, room: Buckets, displaced: Option<nat>, k: Key)
    requires Sound(m, now) && MadeRoom(m, now, room, displaced) && k in room
    ensures KeepsTokens(m, now, room, k)
  {
    RefillIsInvisible(m[k], now, now);
    RefillIsInvisible(Refill(m[k], now), now, now);
  }

  /** Admitting a key into a full map raises the total of tokens by at most one, and by one only when every bucket
      is empty. */
  lemma NewcomerAddsAtMostOneToken(m: Buckets, key: Key, now: int, admitted: Buckets)
    requires Sound(m, now) && |m| == MAX_CLIENTS && key !in m && Admits(m, key, now, admitted)
    ensures forall k :: k in admitted ==> admitted[k].available <= BURST
    ensures Sum(TokensOf(admitted, now)) <= Sum(TokensOf(m, now)) + (if Drained(m, now) then 1 else 0)
  {
    var room: Buckets, displaced: Option<nat> :| MadeRoom(m, now, room, displaced) && admitted == room[key := Arriving(now, displaced)];
    RoomIsSound(m, key, now, room, displaced);
    var gone := Displaced(m, key, now, room, displaced);
    forall k | k in room ensures KeepsTokens(m, now, room, k) { RoomKeepsTokens(m, now, room, displaced, k); }
    ReplacementTotal(m, now, room, gone, key, admitted);
  }

  lemma ReplacementTotal(m: Buckets, now: int, room: Buckets, gone: Key, key: Key, admitted: Buckets)
    requires Sound(m, now) && gone in m && gone !in room && key !in m
    requires forall k :: k in room ==> KeepsTokens(m, now, room, k)
    requires key in admitted && admitted == room[key := admitted[key]]
    requires admitted[key].available <= BURST && admitted[key].refilledAt == now
    ensures forall k :: k in admitted ==> admitted[k].available <= BURST
    ensures Sum(TokensOf(admitted, now)) <= Sum(TokensOf(m, now)) - Refill(m[gone], now).available + admitted[key].available
  {
    SumReplace(TokensOf(m, now), TokensOf(admitted, now), gone, key);
  }

  /** The bucket whose tokens the newcomer starts from. */
  ghost function Displaced(m: Buckets, key: Key, now: int, room: Buckets, displaced: Option<nat>): (gone: Key)
    requires Sound(m, now) && |m| == MAX_CLIENTS && key !in m && MadeRoom(m, now, room, displaced)
    ensures gone in m && gone !in room
    ensures var left := Refill(m[gone], now).available;
            if displaced.Some? then displaced.value == left && (left == 0 ==> Drained(m, now)) else left == BURST
  {
    var kept := Retained(m, now);
    SubmapSize(kept, m);
    if |kept| < MAX_CLIENTS then
      SomeoneIsFull(m, now);
      var gone :| gone in m && Refill(m[gone], now).available >= BURST;
      RefillIsInvisible(m[gone], now, now);
      gone
    else
      var gone :| IsFullest(kept, gone) && room == kept - {gone} && displaced == Some(kept[gone].available);
      gone
  }

  lemma SomeoneIsFull(m: Buckets, now: int)
    requires Sound(m, now) && |Retained(m, now)| < |m|
    ensures exists k :: k in m && Refill(m[k], now).available >= BURST
  {
    assert Retained(m, now).Keys != m.Keys by {
      assert |m| == |m.Keys| && |Retained(m, now)| == |Retained(m, now).Keys|;
    }
  }

  // ---- Whole runs ----

  datatype Event = Spend(key: Key, ok: bool) | Refund(key: Key)

  /** One call, at a clock reading no earlier than the last. */
  ghost predicate Step(m: Buckets, now: int, e: Event, after: Buckets, later: int) {
    && now <= later && Sound(m, now)
    && match e
       case Spend(key, ok) => Spends(m, key, later, after, ok)
       case Refund(key) => after == Refunded(m, key)
  }

  ghost predicate StepAt(ms: seq<Buckets>, ts: seq<int>, es: seq<Event>, i: int)
    requires |ms| == |ts| == |es| + 1 && 0 <= i < |es|
  {
    Step(ms[i], ts[i], es[i], ms[i + 1], ts[i + 1])
  }

  ghost predicate IsRun(ms: seq<Buckets>, ts: seq<int>, es: seq<Event>) {
    |ms| == |ts| == |es| + 1 && forall i :: 0 <= i < |es| ==> StepAt(ms, ts, es, i)
  }

  function Net(e: Event): int {
    match e
    case Spend(_, ok) => if ok then 1 else 0
    case Refund(_) => -1
  }

  /** Granted comparisons less refunds, over every key. */
  function NetOf(es: seq<Event>): int { if es == [] then 0 else NetOf(es[..|es| - 1]) + Net(es[|es| - 1]) }

  function NetFor(es: seq<Event>, k: Key): int {
    if es == [] then 0
    else NetFor(es[..|es| - 1], k) + if es[|es| - 1].key == k then Net(es[|es| - 1]) else 0
  }

  /** What one call can add beyond the refill: a burst while there is room, one comparison once the map is full. */
  function Allowance(m: Buckets, e: Event): nat {
    if e.Refund? || e.key in m then 0 else if |m| < MAX_CLIENTS then BURST else 1
  }

  function Allowances(ms: seq<Buckets>, es: seq<Event>): nat
    requires |ms| == |es| + 1
  {
    if es == [] then 0
    else Allowances(ms[..|es|], es[..|es| - 1]) + Allowance(ms[|es| - 1], es[|es| - 1])
  }

  lemma StepKeepsSound(m: Buckets, now: int, e: Event, after: Buckets, later: int)
    requires Step(m, now, e, after, later)
    ensures Sound(after, later)
  {
    match e
    case Spend(key, ok) => SpendKeepsSound(m, key, later, after, ok);
    case Refund(key) => if key in m { RefundReturnsOneToken(m, key, now); }
  }

  /** One bucket over one call. */
  lemma BucketStep(m: Buckets, now: int, e: Event, after: Buckets, later: int, k: Key)
    requires Step(m, now, e, after, later) && k in m && k in after
    ensures Level(after[k], later) + REFILL * (if e.key == k then Net(e) else 0) <= Level(m[k], now) + later - now
  {
    match e
    case Spend(key, ok) =>
      if key in m { SpendTakesOneToken(m, key, later, after, ok); }
      else { NewcomerChangesNoLevel(m, key, later, after, ok, k); }
    case Refund(key) => if key in m { RefundReturnsOneToken(m, key, later); }
  }

  lemma {:induction false} BucketRun(ms: seq<Buckets>, ts: seq<int>, es: seq<Event>, k: Key)
    requires IsRun(ms, ts, es) && forall m :: m in ms ==> k in m
    ensures Level(ms[|es|][k], ts[|es|]) + REFILL * NetFor(es, k) <= Level(ms[0][k], ts[0]) + ts[|es|] - ts[0]
    ensures es != [] ==> Sound(ms[|es|], ts[|es|])
    decreases |es|
  {
    if es != [] {
      var n := |es| - 1;
      Shorter(ms, ts, es);
      BucketRun(ms[..n + 1], ts[..n + 1], es[..n], k);
      assert StepAt(ms, ts, es, n);
      StepKeepsSound(ms[n], ts[n], es[n], ms[n + 1], ts[n + 1]);
      BucketStep(ms[n], ts[n], es[n], ms[n + 1], ts[n + 1], k);
    }
  }

  lemma Shorter(ms: seq<Buckets>, ts: seq<int>, es: seq<Event>)
    requires IsRun(ms, ts, es) && es != []
    ensures IsRun(ms[..|es|], ts[..|es|], es[..|es| - 1])
  {
    var ms', ts', es' := ms[..|es|], ts[..|es|], es[..|es| - 1];
    forall i | 0 <= i < |es'| ensures StepAt(ms', ts', es', i) {
      assert StepAt(ms, ts, es, i);
    }
  }

  /** Over one bucket's life, comparisons granted and not refunded are at most what it started with plus one per
      refill interval, whatever the other clients do. */
  lemma BucketLifeIsBounded(ms: seq<Buckets>, ts: seq<int>, es: seq<Event>, k: Key)
    requires IsRun(ms, ts, es) && (forall m :: m in ms ==> k in m) && Sound(ms[0], ts[0]) && ms[0][k].refilledAt == ts[0]
    ensures NetFor(es, k) <= ms[0][k].available + (ts[|es|] - ts[0]) / 100_000_000
  {
    BucketRun(ms, ts, es, k);
    assert Sound(ms[|es|], ts[|es|]);
    assert REFILL * NetFor(es, k) <= REFILL * ms[0][k].available + (ts[|es|] - ts[0]);
    WholeTokens(NetFor(es, k), ms[0][k].available, ts[|es|] - ts[0]);
  }

  lemma WholeTokens(net: int, start: int, elapsed: int)
    requires REFILL * net <= REFILL * start + elapsed
    ensures net <= start + elapsed / REFILL
  {
  }

  /** The whole map over one call. */
  lemma MapStep(m: Buckets, now: int, e: Event, after: Buckets, later: int)
    requires Step(m, now, e, after, later)
    ensures Sum(Levels(after, later)) + REFILL * Net(e)
         <= Sum(Levels(m, now)) + MAX_CLIENTS * (later - now) + REFILL * Allowance(m, e)
  {
    TimePasses(m, now, later);
    match e
    case Spend(key, ok) =>
      if key in m {
        SpendTakesOneToken(m, key, later, after, ok);
        SumReplace(Levels(m, later), Levels(after, later), key, key);
      } else {
        NewcomerTotal(m, key, later, after, ok);
      }
    case Refund(key) =>
      if key in m {
        RefundReturnsOneToken(m, key, later);
        SumReplace(Levels(m, later), Levels(after, later), key, key);
      }
  }

  lemma LevelRises(t: Tokens, now: int, later: int)
    requires t.available <= BURST && t.refilledAt <= now <= later
    ensures 0 <= Level(t, now) <= Level(t, later) <= Level(t, now) + later - now
  {
  }

  lemma TimePasses(m: Buckets, now: int, later: int)
    requires Sound(m, now) && now <= later
    ensures Sum(Levels(m, later)) <= Sum(Levels(m, now)) + MAX_CLIENTS * (later - now)
    ensures forall k :: k in m ==> 0 <= Level(m[k], later)
  {
    var d: nat := later - now;
    var a, b := Levels(m, now), Levels(m, later);
    forall k | k in m ensures 0 <= a[k] <= b[k] <= a[k] + d { LevelRises(m[k], now, later); }
    SumAtMost(b, a, d);
    assert a.Keys == m.Keys && |a| == |a.Keys| && |m| == |m.Keys|;
    Scaled(|m|, MAX_CLIENTS, d);
  }

  lemma Scaled(a: nat, b: nat, d: nat)
    requires a <= b
    ensures a * d <= b * d
  {
  }

  /** No level but the newcomer's is above what it was. */
  ghost predicate OnlyNew(m: Buckets, key: Key, now: int, after: Buckets) {
    && key in after
    && (forall k :: k in m ==> 0 <= Level(m[k], now))
    && (forall k :: k in after && k != key ==> k in m && Level(after[k], now) <= Level(m[k], now))
  }

  lemma AddedLevel(m: Buckets, key: Key, now: int, after: Buckets)
    requires OnlyNew(m, key, now, after)
    ensures Sum(Levels(after, now)) <= Sum(Levels(m, now)) + Level(after[key], now)
  {
    SumRemove(Levels(after, now), key);
    SumAtMost(Levels(after, now) - {key}, Levels(m, now), 0);
  }

  lemma ReplacedLevel(m: Buckets, key: Key, now: int, after: Buckets, gone: Key)
    requires OnlyNew(m, key, now, after) && gone in m && gone !in after
    ensures Sum(Levels(after, now)) <= Sum(Levels(m, now)) + Level(after[key], now) - Level(m[gone], now)
  {
    SumReplace(Levels(m, now), Levels(after, now), gone, key);
  }

  lemma NewcomerOnly(m: Buckets, key: Key, now: int, after: Buckets, ok: bool)
    requires Sound(m, now) && key !in m && Spends(m, key, now, after, ok)
    ensures OnlyNew(m, key, now, after)
  {
    SpendKeepsSound(m, key, now, after, ok);
    forall k | k in m ensures 0 <= Level(m[k], now) { LevelRises(m[k], now, now); }
    forall k | k in after && k != key ensures k in m && Level(after[k], now) <= Level(m[k], now) {
      assert k in m;
      NewcomerChangesNoLevel(m, key, now, after, ok, k);
    }
  }

  lemma FirstSpend(m: Buckets, key: Key, now: int, room: Buckets, displaced: Option<nat>, after: Buckets, ok: bool)
    requires Sound(m, now) && key !in m && SpendsFrom(m, key, now, room, displaced, after, ok)
    ensures ok && key in after && after[key] == Tokens(Arriving(now, displaced).available - 1, now)
    ensures forall k :: k in m && k !in room ==> k !in after
  {
    assert 0 / REFILL == 0;
  }

  /** The level a newcomer keeps after its first spend, and the bucket it displaced if the map was full. */
  lemma NewcomerLevel(m: Buckets, key: Key, now: int, after: Buckets, ok: bool) returns (gone: Key)
    requires Sound(m, now) && key !in m && Spends(m, key, now, after, ok)
    ensures ok && key in after && Level(after[key], now) <= (BURST - 1) * REFILL
    ensures |m| == MAX_CLIENTS ==> gone in m && gone !in after && Level(after[key], now) <= Level(m[gone], now)
  {
    var room: Buckets, displaced: Option<nat> :| SpendsFrom(m, key, now, room, displaced, after, ok);
    FirstSpend(m, key, now, room, displaced, after, ok);
    gone := key;
    if |m| == MAX_CLIENTS {
      gone := Displaced(m, key, now, room, displaced);
      HoldsItsTokens(m[gone], now);
    }
  }

  lemma HoldsItsTokens(t: Tokens, now: int)
    requires t.available <= BURST && t.refilledAt <= now
    ensures Refill(t, now).available * REFILL <= Level(t, now)
  {
    RefillIsInvisible(t, now, now);
  }

  lemma NewcomerTotal(m: Buckets, key: Key, now: int, after: Buckets, ok: bool)
    requires Sound(m, now) && key !in m && Spends(m, key, now, after, ok)
    ensures ok && Sum(Levels(after, now)) + REFILL
         <= Sum(Levels(m, now)) + REFILL * (if |m| < MAX_CLIENTS then BURST else 1)
  {
    var gone := NewcomerLevel(m, key, now, after, ok);
    NewcomerOnly(m, key, now, after, ok);
    if |m| < MAX_CLIENTS { AddedLevel(m, key, now, after); } else { ReplacedLevel(m, key, now, after, gone); }
  }

  /** Over any run of the whole throttle, however clients come and go, comparisons granted and not refunded are at
      most the tokens it started with, one per interval for each bucket the map can hold, a burst for each key that
      arrived while there was room and a single one for each that arrived when there was none. */
  lemma {:induction false} GuessesAreBounded(ms: seq<Buckets>, ts: seq<int>, es: seq<Event>)
    requires IsRun(ms, ts, es)
    ensures Sum(Levels(ms[|es|], ts[|es|])) + REFILL * NetOf(es)
         <= Sum(Levels(ms[0], ts[0])) + MAX_CLIENTS * (ts[|es|] - ts[0]) + REFILL * Allowances(ms, es)
    decreases |es|
  {
    if es != [] {
      var n := |es| - 1;
      Shorter(ms, ts, es);
      GuessesAreBounded(ms[..n + 1], ts[..n + 1], es[..n]);
      assert StepAt(ms, ts, es, n);
      MapStep(ms[n], ts[n], es[n], ms[n + 1], ts[n + 1]);
    }
  }

  // ---- What a newcomer is granted ----

  /** A newcomer starts with a whole burst if there is room for it or some bucket is full, and otherwise with what the
      fullest bucket had, but at least one comparison; its first spend takes one of them. */
  lemma NewcomerStarts(m: Buckets, key: Key, now: int, after: Buckets, ok: bool) returns (start: nat)
    requires Sound(m, now) && key !in m && Spends(m, key, now, after, ok)
    ensures ok && key in after && start >= 1 && after[key] == Tokens(start - 1, now)
    ensures |m| < 1024 || (exists k <- m :: Refill(m[k], now).available == 16) ==> start == 16
    ensures !(|m| < 1024 || (exists k <- m :: Refill(m[k], now).available == 16)) ==>
              && (forall k <- m :: Refill(m[k], now).available <= start)
              && (start == 1 || exists k <- m :: Refill(m[k], now).available == start)
  {
    var room: Buckets, displaced: Option<nat> :| SpendsFrom(m, key, now, room, displaced, after, ok);
    FirstSpend(m, key, now, room, displaced, after, ok);
    start := Arriving(now, displaced).available;
    if |m| == MAX_CLIENTS { FullMapDisplaces(m, now, room, displaced); }
  }

  lemma FullMapDisplaces(m: Buckets, now: int, room: Buckets, displaced: Option<nat>)
    requires Sound(m, now) && |m| == MAX_CLIENTS && MadeRoom(m, now, room, displaced)
    ensures displaced.None? <==> exists k <- m :: Refill(m[k], now).available == BURST
    ensures displaced.Some? ==>
              && (forall k <- m :: Refill(m[k], now).available <= displaced.value)
              && exists k <- m :: Refill(m[k], now).available == displaced.value
  {
    var kept := Retained(m, now);
    SubmapSize(kept, m);
    forall k <- m ensures Refill(m[k], now).available <= BURST { RefillIsInvisible(m[k], now, now); }
    if |kept| < MAX_CLIENTS {
      SomeoneIsFull(m, now);
    } else {
      var gone :| IsFullest(kept, gone) && room == kept - {gone} && displaced == Some(kept[gone].available);
      assert gone in m && kept[gone] == Refill(m[gone], now);
      forall k <- m ensures Refill(m[k], now).available <= displaced.value { assert k in kept; }
    }
  }

  /** A client new to a map with room has its first sixteen comparisons granted, however fast they come. */
  lemma {:induction false} NewClientHasABurst(ms: seq<Buckets>, ts: seq<int>, es: seq<Event>, k: Key, i: nat)
    requires IsRun(ms, ts, es) && i < |es| && i < 16 && k !in ms[0] && |ms[0]| < 1024
    requires forall e <- es :: e.Spend? && e.key == k
    ensures es[i].ok && k in ms[i + 1] && Level(ms[i + 1][k], ts[i + 1]) >= (15 - i) * REFILL
  {
    assert StepAt(ms, ts, es, i) && es[i] in es;
    StepKeepsSound(ms[i], ts[i], es[i], ms[i + 1], ts[i + 1]);
    if i == 0 {
      var start := NewcomerStarts(ms[0], k, ts[1], ms[1], es[0].ok);
    } else {
      NewClientHasABurst(ms, ts, es, k, i - 1);
      LevelRises(ms[i][k], ts[i], ts[i + 1]);
      SpendTakesOneToken(ms[i], k, ts[i + 1], ms[i + 1], es[i].ok);
    }
  }
}
